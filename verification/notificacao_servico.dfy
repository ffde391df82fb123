/** `services/notificacao_servico.py` without a repository: the in-memory
    cache of notifications, sending, the unread and full listings (newest
    first), marking as read, deleting, counting, batch sending and the type
    and urgency searches. */
module ServicoNotificacoes {
  import opened Wrappers
  import opened Texto
  import opened Usuarios
  import N = Notificacoes

  type Notificacao = N.Notificacao

  datatype ErroServico =
    | UsuarioNulo        // "Usuário não pode ser None"
    | NaoEUsuario        // "usuario deve ser uma instância de Usuario"
    | UsuarioInativo
    | MensagemVazia
    | NotificacaoInvalida(causa: N.ErroNotificacao)
    | ListaVazia         // "Lista de usuários não pode ser vazia"

  /** The `None` and `isinstance` checks every operation on a user opens with. */
  function ChecarUsuario(usuario: Dyn<Usuario>): (r: Result<Usuario, ErroServico>)
    ensures r.Ok? <==> usuario.Is?
    ensures r.Ok? ==> r.value == usuario.val
    ensures usuario.Null? ==> r == Err(UsuarioNulo)
    ensures usuario.Other? ==> r == Err(NaoEUsuario)
  {
    match usuario
    case Null => Err(UsuarioNulo)
    case Other => Err(NaoEUsuario)
    case Is(u) => Ok(u)
  }

  function ObjetosDe(usuario: Dyn<Usuario>): set<object> {
    if usuario.Is? then {usuario.val} else {}
  }

  /** When `enviar` gets as far as creating the notification. */
  predicate Admissivel(usuario: Dyn<Usuario>, mensagem: string, tipo: string, titulo: string)
    reads ObjetosDe(usuario)
  {
    usuario.Is? && usuario.val.IsAtivo() && ConteudoAceito(mensagem, tipo, titulo)
  }

  /** The checks of `enviar` that do not depend on the user. */
  predicate ConteudoAceito(mensagem: string, tipo: string, titulo: string) {
    !Blank(mensagem) && N.TipoDe(Lower(Strip(tipo))).Some? && !Blank(titulo)
  }

  /** The user check of `enviar`: an active `Usuario`. */
  predicate UsuarioAtivo(usuario: Dyn<Usuario>)
    reads ObjetosDe(usuario)
  {
    usuario.Is? && usuario.val.IsAtivo()
  }

  /** What `enviar` does before touching the cache: the user checks, the
      active check, the message check, then the notification's own
      constructor, created now, unread, for the user's id. */
  function Admissao(usuario: Dyn<Usuario>, mensagem: string, tipo: string, titulo: string, novoId: string, agora: Instante)
    : (r: Result<N.Conteudo, ErroServico>)
    reads ObjetosDe(usuario)
    ensures r.Ok? <==> Admissivel(usuario, mensagem, tipo, titulo)
    ensures r.Ok? ==> N.ConteudoValido(r.value)
  {
    var u :- ChecarUsuario(usuario);
    if !u.IsAtivo() then Err(UsuarioInativo)
    else if Blank(mensagem) then Err(MensagemVazia)
    else
      match N.NovoConteudo(Some(u.usuarioId), Is(tipo), titulo, mensagem, None, novoId, Is(agora), agora)
      case Err(e) => Err(NotificacaoInvalida(e))
      case Ok(c) => Ok(c)
  }

  /** The checks of `enviar` come in the source's order, and what it
      creates belongs to the user, was created now and carries the new id. */
  lemma AdmissaoOrdem(usuario: Dyn<Usuario>, mensagem: string, tipo: string, titulo: string, novoId: string, agora: Instante)
    ensures usuario.Null? ==> Admissao(usuario, mensagem, tipo, titulo, novoId, agora) == Err(UsuarioNulo)
    ensures usuario.Other? ==> Admissao(usuario, mensagem, tipo, titulo, novoId, agora) == Err(NaoEUsuario)
    ensures usuario.Is? && !usuario.val.IsAtivo() ==> Admissao(usuario, mensagem, tipo, titulo, novoId, agora) == Err(UsuarioInativo)
    ensures usuario.Is? && usuario.val.IsAtivo() && Blank(mensagem) ==>
              Admissao(usuario, mensagem, tipo, titulo, novoId, agora) == Err(MensagemVazia)
    ensures usuario.Is? && usuario.val.IsAtivo() && !Blank(mensagem) && N.TipoDe(Lower(Strip(tipo))).None? ==>
              Admissao(usuario, mensagem, tipo, titulo, novoId, agora).Err?
    ensures Admissao(usuario, mensagem, tipo, titulo, novoId, agora).Ok? ==>
              var c := Admissao(usuario, mensagem, tipo, titulo, novoId, agora).value;
              c.usuarioId == usuario.val.usuarioId && c.criadaEm == agora && c.notificacaoId == novoId
              && NonSpace(c.mensagem) == NonSpace(mensagem)
  {
  }

  /** The ids of the users in `usuarios`. */
  function IdsDe(usuarios: seq<Dyn<Usuario>>): set<string> {
    if usuarios == [] then {}
    else IdsDe(usuarios[..|usuarios| - 1])
         + (if usuarios[|usuarios| - 1].Is? then {usuarios[|usuarios| - 1].val.usuarioId} else {})
  }

  /** An id is among `IdsDe(usuarios)` exactly when one of `usuarios` is a
      user with that id. */
  lemma {:induction false} IdsDeMembros(usuarios: seq<Dyn<Usuario>>, id: string)
    ensures id in IdsDe(usuarios) <==> exists u :: u in usuarios && u.Is? && u.val.usuarioId == id
  {
    if usuarios != [] {
      var init := usuarios[..|usuarios| - 1];
      assert usuarios == init + [usuarios[|usuarios| - 1]];
      IdsDeMembros(init, id);
      if id in IdsDe(init) {
        var u :| u in init && u.Is? && u.val.usuarioId == id;
        assert u in usuarios;
      }
    }
  }

  lemma {:induction false} IdsDeContem(usuarios: seq<Dyn<Usuario>>, i: nat)
    requires i < |usuarios| && usuarios[i].Is?
    ensures usuarios[i].val.usuarioId in IdsDe(usuarios)
  {
    if i < |usuarios| - 1 {
      var init := usuarios[..|usuarios| - 1];
      assert init[i] == usuarios[i];
      IdsDeContem(init, i);
    }
  }

  /** Every notification of `s` was created at `agora` for one of `ids`. */
  predicate CriadasPara(s: seq<Notificacao>, ids: set<string>, agora: Instante) {
    s == [] || (CriadasPara(s[..|s| - 1], ids, agora) && s[|s| - 1].criadaEm == agora && s[|s| - 1].usuarioId in ids)
  }

  lemma CriadasParaMais(s: seq<Notificacao>, n: Notificacao, ids: set<string>, agora: Instante)
    requires CriadasPara(s, ids, agora) && n.criadaEm == agora && n.usuarioId in ids
    ensures CriadasPara(s + [n], ids, agora)
  {
    assert (s + [n])[..|s|] == s;
  }

  lemma {:induction false} CriadasParaIndices(s: seq<Notificacao>, ids: set<string>, agora: Instante)
    requires CriadasPara(s, ids, agora)
    ensures forall k :: 0 <= k < |s| ==> s[k].criadaEm == agora && s[k].usuarioId in ids
  {
    if s != [] {
      CriadasParaIndices(s[..|s| - 1], ids, agora);
      assert forall k :: 0 <= k < |s| - 1 ==> s[k] == s[..|s| - 1][k];
    }
  }

  /** How many of `usuarios` are active users. */
  function Ativos(usuarios: seq<Dyn<Usuario>>): (n: nat)
    reads set i | 0 <= i < |usuarios| && usuarios[i].Is? :: usuarios[i].val
    ensures n <= |usuarios|
  {
    if usuarios == [] then 0
    else Ativos(usuarios[..|usuarios| - 1]) + (if UsuarioAtivo(usuarios[|usuarios| - 1]) then 1 else 0)
  }

  lemma AtivosPasso(usuarios: seq<Dyn<Usuario>>, i: nat)
    requires i < |usuarios|
    ensures Ativos(usuarios[..i + 1]) == Ativos(usuarios[..i]) + (if UsuarioAtivo(usuarios[i]) then 1 else 0)
  {
    assert usuarios[..i + 1][..i] == usuarios[..i];
  }

  lemma AnexarUm<T>(a: seq<T>, b: seq<T>, x: T)
    ensures a + b + [x] == a + (b + [x])
  {
  }

  /** The count of a batch after turn `i`: one more exactly when the
      content is acceptable and `usuarios[i]` is an active user. */
  lemma ContagemMais(enviadas: seq<Notificacao>, mais: seq<Notificacao>, usuarios: seq<Dyn<Usuario>>, i: nat,
                     ok: bool, enviou: bool)
    requires i < |usuarios|
    requires |enviadas| == if ok then Ativos(usuarios[..i]) else 0
    requires enviou <==> ok && UsuarioAtivo(usuarios[i])
    requires |mais| == |enviadas| + (if enviou then 1 else 0)
    ensures |mais| == if ok then Ativos(usuarios[..i + 1]) else 0
  {
    AtivosPasso(usuarios, i);
  }

  /** Newest first: the order `sorted(…, key=criadaEm, reverse=True)` yields. */
  predicate Recentes(s: seq<Notificacao>) {
    forall i, j :: 0 <= i < j < |s| ==> s[i].criadaEm >= s[j].criadaEm
  }

  /** No element of `s` is older than `t`. */
  predicate NaoMaisNovas(s: seq<Notificacao>, t: Instante) {
    forall i :: 0 <= i < |s| ==> s[i].criadaEm >= t
  }

  /** Puts `x` in front of the first element that is not newer than it, so
      that among equal times the earlier-listed element stays first. */
  function Inserir(x: Notificacao, s: seq<Notificacao>): (r: seq<Notificacao>)
    ensures multiset(r) == multiset{x} + multiset(s)
    ensures r[0] == x || (s != [] && r[0] == s[0])
    ensures Recentes(s) ==> Recentes(r)
  {
    if s == [] || s[0].criadaEm <= x.criadaEm then
      assert Recentes(s) ==> Recentes([x] + s) by {
        if Recentes(s) { RecentesCons(x, s); }
      }
      [x] + s
    else
      var t := Inserir(x, s[1..]);
      InserirPasso(x, s, t);
      [s[0]] + t
  }

  /** The recursive step of `Inserir`: `x` went into the tail, behind `s[0]`. */
  lemma InserirPasso(x: Notificacao, s: seq<Notificacao>, t: seq<Notificacao>)
    requires s != [] && x.criadaEm < s[0].criadaEm
    requires multiset(t) == multiset{x} + multiset(s[1..])
    requires Recentes(s[1..]) ==> Recentes(t)
    ensures multiset([s[0]] + t) == multiset{x} + multiset(s)
    ensures Recentes(s) ==> Recentes([s[0]] + t)
  {
    assert s == [s[0]] + s[1..];
    assert multiset([s[0]] + t) == multiset{s[0]} + multiset(t);
    if Recentes(s) {
      NaoMaisNovasPermutacao(s[0].criadaEm, x, s[1..], t);
      RecentesCons(s[0], t);
    }
  }

  /** Putting in front an element no older than any other keeps the order. */
  lemma RecentesCons(h: Notificacao, t: seq<Notificacao>)
    requires Recentes(t) && forall k :: 0 <= k < |t| ==> t[k].criadaEm <= h.criadaEm
    ensures Recentes([h] + t)
  {
    forall i, j | 0 <= i < j < |[h] + t| ensures ([h] + t)[i].criadaEm >= ([h] + t)[j].criadaEm {
      if i > 0 { assert ([h] + t)[i] == t[i - 1]; }
      assert ([h] + t)[j] == t[j - 1];
    }
  }

  /** A rearrangement of `[x] + rest` is no newer than `h` when its parts are not. */
  lemma NaoMaisNovasPermutacao(h: Instante, x: Notificacao, rest: seq<Notificacao>, t: seq<Notificacao>)
    requires multiset(t) == multiset{x} + multiset(rest)
    requires x.criadaEm <= h && Recentes(rest) && (rest == [] || rest[0].criadaEm <= h)
    ensures forall k :: 0 <= k < |t| ==> t[k].criadaEm <= h
  {
    forall k | 0 <= k < |t| ensures t[k].criadaEm <= h {
      assert t[k] in multiset(t);
      if t[k] != x {
        assert t[k] in multiset(rest);
        var m :| 0 <= m < |rest| && rest[m] == t[k];
        if m > 0 { assert rest[0].criadaEm >= rest[m].criadaEm; }
      }
    }
  }

  /** A stable sort, newest first. */
  function OrdenarRecentes(s: seq<Notificacao>): (r: seq<Notificacao>)
    ensures Recentes(r)
    ensures multiset(r) == multiset(s)
    ensures |r| == |s|
  {
    if s == [] then [] else
      var r := Inserir(s[0], OrdenarRecentes(s[1..]));
      assert s == [s[0]] + s[1..];
      assert |r| == |multiset(r)|;
      r
  }

  /** `[n for n in s if n.usuarioId == uid]`. */
  function DoUsuario(s: seq<Notificacao>, uid: string): (r: seq<Notificacao>)
    ensures |r| <= |s|
    ensures forall i :: 0 <= i < |r| ==> r[i] in s && r[i].usuarioId == uid
    ensures forall i :: 0 <= i < |s| && s[i].usuarioId == uid ==> s[i] in r
  {
    if s == [] then []
    else
      var init := s[..|s| - 1];
      var ultima := s[|s| - 1];
      var anterior := DoUsuario(init, uid);
      assert s == init + [ultima];
      if ultima.usuarioId == uid then anterior + [ultima] else anterior
  }

  /** `[n for n in s if n.usuarioId == uid and not n.lida]`. */
  function NaoLidas(s: seq<Notificacao>, uid: string): (r: seq<Notificacao>)
    reads s
    ensures |r| <= |s|
    ensures forall i :: 0 <= i < |r| ==> r[i] in s && r[i].usuarioId == uid && !r[i].lida
    ensures forall i :: 0 <= i < |s| && s[i].usuarioId == uid && !s[i].lida ==> s[i] in r
  {
    if s == [] then []
    else
      var init := s[..|s| - 1];
      var ultima := s[|s| - 1];
      var anterior := NaoLidas(init, uid);
      assert s == init + [ultima];
      if ultima.usuarioId == uid && !ultima.lida then anterior + [ultima] else anterior
  }

  /** A user none of whose notifications is unread has no unread list. */
  lemma NenhumaNaoLida(s: seq<Notificacao>, uid: string)
    requires forall j :: 0 <= j < |s| && s[j].usuarioId == uid ==> s[j].lida
    ensures NaoLidas(s, uid) == []
  {
  }

  /** Dropping the last element keeps the order. */
  lemma RecentesInicio(s: seq<Notificacao>)
    requires s != [] && Recentes(s)
    ensures Recentes(s[..|s| - 1])
  {
    var init := s[..|s| - 1];
    forall i, j | 0 <= i < j < |init|
      ensures init[i].criadaEm >= init[j].criadaEm
    {
      assert init[i] == s[i] && init[j] == s[j];
    }
  }

  /** Appending an element no newer than any other keeps the order. */
  lemma RecentesMais(a: seq<Notificacao>, x: Notificacao)
    requires Recentes(a) && NaoMaisNovas(a, x.criadaEm)
    ensures Recentes(a + [x])
  {
    var b := a + [x];
    forall i, j | 0 <= i < j < |b|
      ensures b[i].criadaEm >= b[j].criadaEm
    {
      assert b[i] == a[i];
      if j < |a| { assert b[j] == a[j]; }
    }
  }

  /** Whatever is taken from before the last element of a newest-first
      sequence is no older than that last element. */
  lemma AnterioresMaisNovas(s: seq<Notificacao>, a: seq<Notificacao>)
    requires s != [] && Recentes(s)
    requires forall i :: 0 <= i < |a| ==> a[i] in s[..|s| - 1]
    ensures NaoMaisNovas(a, s[|s| - 1].criadaEm)
  {
    forall i | 0 <= i < |a|
      ensures a[i].criadaEm >= s[|s| - 1].criadaEm
    {
      var k :| 0 <= k < |s| - 1 && s[..|s| - 1][k] == a[i];
      assert s[k] == a[i];
    }
  }

  /** The notifications of `s` of type `alvo`, in order: what
      `[n for n in s if n.is_tipo(tipo)]` keeps when `tipo` names `alvo`. */
  function DoTipo(s: seq<Notificacao>, alvo: N.Tipo): (r: seq<Notificacao>)
    ensures forall i :: 0 <= i < |r| ==> r[i] in s && r[i].tipo == alvo
    ensures forall i :: 0 <= i < |s| && s[i].tipo == alvo ==> s[i] in r
    ensures Recentes(s) ==> Recentes(r)
  {
    if s == [] then []
    else
      var init := s[..|s| - 1];
      var ultima := s[|s| - 1];
      var anterior := DoTipo(init, alvo);
      assert s == init + [ultima];
      assert forall i :: 0 <= i < |init| ==> s[i] == init[i];
      assert Recentes(s) ==> Recentes(init) by {
        if Recentes(s) { RecentesInicio(s); }
      }
      if ultima.tipo == alvo then
        assert Recentes(s) ==> Recentes(anterior + [ultima]) by {
          if Recentes(s) {
            AnterioresMaisNovas(s, anterior);
            RecentesMais(anterior, ultima);
          }
        }
        anterior + [ultima]
      else anterior
  }

  /** The user's unread notifications, newest first, are exactly the
      unread notifications of `s` that belong to the user. */
  lemma NaoLidasOrdenadas(s: seq<Notificacao>, uid: string)
    ensures forall n :: n in OrdenarRecentes(NaoLidas(s, uid)) <==> n in s && n.usuarioId == uid && !n.lida
    ensures forall k :: 0 <= k < |OrdenarRecentes(NaoLidas(s, uid))| ==> OrdenarRecentes(NaoLidas(s, uid))[k] in s
  {
    var f := NaoLidas(s, uid);
    var o := OrdenarRecentes(f);
    forall n | n in o
      ensures n in s && n.usuarioId == uid && !n.lida
    {
      assert n in multiset(o);
      var k :| 0 <= k < |f| && f[k] == n;
    }
    forall k | 0 <= k < |o|
      ensures o[k] in s
    {
      assert o[k] in o;
    }
    forall n | n in s && n.usuarioId == uid && !n.lida
      ensures n in o
    {
      var j :| 0 <= j < |s| && s[j] == n;
      assert n in multiset(f);
    }
  }

  /** What `DoTipo` keeps, stated on membership. */
  lemma DoTipoMembros(s: seq<Notificacao>, alvo: N.Tipo)
    ensures forall n :: n in DoTipo(s, alvo) <==> n in s && n.tipo == alvo
  {
    var r := DoTipo(s, alvo);
    forall n | n in r
      ensures n in s && n.tipo == alvo
    {
      var i :| 0 <= i < |r| && r[i] == n;
    }
    forall n | n in s && n.tipo == alvo
      ensures n in r
    {
      var i :| 0 <= i < |s| && s[i] == n;
    }
  }

  /** `[n for n in s if n.is_urgente()]`; keeps the order. */
  function Urgentes(s: seq<Notificacao>): (r: seq<Notificacao>)
    ensures forall i :: 0 <= i < |r| ==> r[i] in s && r[i].IsUrgente()
    ensures forall i :: 0 <= i < |s| && s[i].IsUrgente() ==> s[i] in r
    ensures Recentes(s) ==> Recentes(r)
  {
    if s == [] then []
    else
      var init := s[..|s| - 1];
      var ultima := s[|s| - 1];
      var anterior := Urgentes(init);
      assert s == init + [ultima];
      assert Recentes(s) ==> Recentes(init) by {
        if Recentes(s) { RecentesInicio(s); }
      }
      if ultima.IsUrgente() then
        assert Recentes(s) ==> Recentes(anterior + [ultima]) by {
          if Recentes(s) {
            AnterioresMaisNovas(s, anterior);
            RecentesMais(anterior, ultima);
          }
        }
        anterior + [ultima]
      else anterior
  }

  /** `DoTipo` keeps every copy of a notification of type `alvo` and
      none of the others. */
  lemma {:induction false} DoTipoMultiplicidade(s: seq<Notificacao>, alvo: N.Tipo, x: Notificacao)
    ensures multiset(DoTipo(s, alvo))[x] == if x.tipo == alvo then multiset(s)[x] else 0
  {
    if s != [] {
      var init := s[..|s| - 1];
      assert s == init + [s[|s| - 1]];
      DoTipoMultiplicidade(init, alvo, x);
    }
  }

  /** `Urgentes` keeps every copy of an urgent notification and none of
      the others. */
  lemma {:induction false} UrgentesMultiplicidade(s: seq<Notificacao>, x: Notificacao)
    ensures multiset(Urgentes(s))[x] == if x.IsUrgente() then multiset(s)[x] else 0
  {
    if s != [] {
      var init := s[..|s| - 1];
      assert s == init + [s[|s| - 1]];
      UrgentesMultiplicidade(init, x);
    }
  }

  /** The position of the first notification with this id, if any. */
  function Posicao(s: seq<Notificacao>, id: string): (r: Option<nat>)
    ensures r.Some? <==> exists i :: 0 <= i < |s| && s[i].notificacaoId == id
    ensures r.Some? ==> r.value < |s| && s[r.value].notificacaoId == id
    ensures r.Some? ==> forall j :: 0 <= j < r.value ==> s[j].notificacaoId != id
  {
    if s == [] then None
    else if s[0].notificacaoId == id then Some(0)
    else match Posicao(s[1..], id)
      case None => None
      case Some(k) => Some(k + 1)
  }

  class NotificacaoServico {
    /** `_notificacoes_cache`. */
    var cache: seq<Notificacao>

    constructor ()
      ensures cache == []
    {
      cache := [];
    }

    /** `NotificacaoServico.enviar`: on success the new notification, unread
        and created at `agora`, is appended to the cache; on failure nothing
        changes. `novoId` stands for `uuid4()`. */
    method Enviar(usuario: Dyn<Usuario>, mensagem: string, tipo: string, titulo: string, novoId: string, agora: Instante)
      returns (r: Result<Notificacao, ErroServico>)
      modifies this`cache
      ensures r.Ok? <==> Admissivel(usuario, mensagem, tipo, titulo)
      ensures r.Err? ==> cache == old(cache)
      ensures r.Ok? ==> fresh(r.value) && cache == old(cache) + [r.value] && !r.value.lida
      ensures r.Err? ==> Admissao(usuario, mensagem, tipo, titulo, novoId, agora) == Err(r.error)
      ensures r.Ok? ==> Admissao(usuario, mensagem, tipo, titulo, novoId, agora) == Ok(r.value.Dados())
      ensures r.Ok? ==> r.value.usuarioId == usuario.val.usuarioId && r.value.criadaEm == agora && r.value.notificacaoId == novoId
    {
      AdmissaoOrdem(usuario, mensagem, tipo, titulo, novoId, agora);
      var c := Admissao(usuario, mensagem, tipo, titulo, novoId, agora);
      if c.Err? {
        return Err(c.error);
      }
      var n := new N.Notificacao(c.value, false);
      cache := cache + [n];
      return Ok(n);
    }

    /** `NotificacaoServico.listarNaoLidas`: exactly the user's unread
        notifications, newest first. */
    method ListarNaoLidas(usuario: Dyn<Usuario>) returns (r: Result<seq<Notificacao>, ErroServico>)
      ensures r.Ok? <==> usuario.Is?
      ensures !usuario.Is? ==> r == ChecarUsuario(usuario).PropagateFailure()
      ensures r.Ok? ==> r.value == OrdenarRecentes(NaoLidas(cache, usuario.val.usuarioId))
      ensures r.Ok? ==> Recentes(r.value) && multiset(r.value) == multiset(NaoLidas(cache, usuario.val.usuarioId))
      ensures r.Ok? ==> forall n :: n in r.value <==> n in cache && n.usuarioId == usuario.val.usuarioId && !n.lida
    {
      var u :- ChecarUsuario(usuario);
      NaoLidasOrdenadas(cache, u.usuarioId);
      return Ok(OrdenarRecentes(NaoLidas(cache, u.usuarioId)));
    }

    /** `NotificacaoServico.listarTodas`: the user's notifications newest
        first, cut at `limite` with Python slice semantics. */
    method ListarTodas(usuario: Dyn<Usuario>, limite: int) returns (r: Result<seq<Notificacao>, ErroServico>)
      ensures r.Ok? <==> usuario.Is?
      ensures !usuario.Is? ==> r == ChecarUsuario(usuario).PropagateFailure()
      ensures r.Ok? ==> Recentes(r.value) && r.value == PrefixPy(OrdenarRecentes(DoUsuario(cache, usuario.val.usuarioId)), limite)
      ensures r.Ok? && limite >= 0 ==> |r.value| == if limite < |DoUsuario(cache, usuario.val.usuarioId)| then limite
                                                   else |DoUsuario(cache, usuario.val.usuarioId)|
      ensures r.Ok? ==> forall n :: n in r.value ==> n in cache && n.usuarioId == usuario.val.usuarioId
    {
      var u :- ChecarUsuario(usuario);
      var todas := OrdenarRecentes(DoUsuario(cache, u.usuarioId));
      var corte := PrefixPy(todas, limite);
      assert forall n :: n in todas <==> n in multiset(DoUsuario(cache, u.usuarioId));
      assert forall n :: n in corte ==> n in todas;
      return Ok(corte);
    }

    /** `NotificacaoServico.marcarComoLida`: marks the first notification
        with this id, and only it; false when there is none. */
    method MarcarComoLida(id: string) returns (b: bool)
      modifies cache
      ensures b <==> Posicao(cache, id).Some?
      ensures b ==> cache[Posicao(cache, id).value].lida
      ensures forall j :: 0 <= j < |cache| && (!b || cache[j] != cache[Posicao(cache, id).value]) ==>
                cache[j].lida == old(cache[j].lida)
    {
      for i := 0 to |cache|
        invariant forall j :: 0 <= j < i ==> cache[j].notificacaoId != id
      {
        if cache[i].notificacaoId == id {
          cache[i].MarcarComoLida();
          assert Posicao(cache, id) == Some(i);
          return true;
        }
      }
      return false;
    }

    /** The loop of `marcarTodasComoLidas`: `marcarComoLida()` on each
        notification of `lista`; nothing outside `lista` changes. */
    static method MarcarCada(lista: seq<Notificacao>)
      modifies lista
      ensures forall k :: 0 <= k < |lista| ==> lista[k].lida
    {
      for i := 0 to |lista|
        invariant forall k :: 0 <= k < i ==> lista[k].lida
      {
        lista[i].MarcarComoLida();
      }
    }

    /** `NotificacaoServico.marcarTodasComoLidas`: every notification of the
        user ends up read, no other changes, and the result is how many were
        unread. */
    method MarcarTodasComoLidas(usuario: Dyn<Usuario>) returns (r: Result<nat, ErroServico>)
      modifies cache
      ensures r.Ok? <==> usuario.Is?
      ensures !usuario.Is? ==> r == ChecarUsuario(usuario).PropagateFailure()
      ensures !usuario.Is? ==> forall j :: 0 <= j < |cache| ==> cache[j].lida == old(cache[j].lida)
      ensures r.Ok? ==> r.value == old(|NaoLidas(cache, usuario.val.usuarioId)|)
      ensures r.Ok? ==> forall j :: 0 <= j < |cache| ==>
                cache[j].lida == (cache[j].usuarioId == usuario.val.usuarioId || old(cache[j].lida))
      ensures r.Ok? ==> NaoLidas(cache, usuario.val.usuarioId) == []
    {
      var u :- ChecarUsuario(usuario);
      // the list `listarNaoLidas` returns
      var lista := OrdenarRecentes(NaoLidas(cache, u.usuarioId));
      NaoLidasOrdenadas(cache, u.usuarioId);
      MarcarCada(lista);
      forall j | 0 <= j < |cache|
        ensures cache[j].lida == (cache[j].usuarioId == u.usuarioId || old(cache[j].lida))
      {
        if cache[j] !in lista {
          assert cache[j].lida == old(cache[j].lida);
        }
      }
      NenhumaNaoLida(cache, u.usuarioId);
      return Ok(|lista|);
    }

    /** `NotificacaoServico.excluir`: removes the first notification with
        this id; false and no change when there is none. */
    method Excluir(id: string) returns (b: bool)
      modifies this`cache
      ensures b <==> Posicao(old(cache), id).Some?
      ensures b ==> cache == old(cache)[..Posicao(old(cache), id).value] + old(cache)[Posicao(old(cache), id).value + 1..]
      ensures !b ==> cache == old(cache)
    {
      for i := 0 to |cache|
        invariant forall j :: 0 <= j < i ==> cache[j].notificacaoId != id
      {
        if cache[i].notificacaoId == id {
          assert Posicao(cache, id) == Some(i);
          cache := cache[..i] + cache[i + 1..];
          return true;
        }
      }
      return false;
    }

    /** `NotificacaoServico.contar_nao_lidas`. */
    method ContarNaoLidas(usuario: Dyn<Usuario>) returns (r: Result<nat, ErroServico>)
      ensures r.Ok? <==> usuario.Is?
      ensures !usuario.Is? ==> r == ChecarUsuario(usuario).PropagateFailure()
      ensures r.Ok? ==> r.value == |NaoLidas(cache, usuario.val.usuarioId)|
      ensures r.Ok? ==> (r.value == 0 <==> forall n :: n in cache && n.usuarioId == usuario.val.usuarioId ==> n.lida)
    {
      var naoLidas :- ListarNaoLidas(usuario);
      assert |naoLidas| == |multiset(naoLidas)|;
      if |naoLidas| != 0 {
        assert naoLidas[0] in naoLidas;
      }
      return Ok(|naoLidas|);
    }

    /** Turn `i` of the loop in `enviar_em_lote`: `enviar` for `usuarios[i]`
        inside `try … except ValueError`. What it sends is appended to the
        running list `enviadas` and to the cache; a refused user sends
        nothing. */
    method TentarEnviar(usuarios: seq<Dyn<Usuario>>, i: nat, ghost ok: bool, ghost inicio: seq<Notificacao>,
                        enviadas: seq<Notificacao>, mensagem: string, tipo: string, titulo: string,
                        novoId: string, agora: Instante)
      returns (mais: seq<Notificacao>)
      requires i < |usuarios| && ok == ConteudoAceito(mensagem, tipo, titulo)
      requires cache == inicio + enviadas
      requires |enviadas| == if ok then Ativos(usuarios[..i]) else 0
      requires CriadasPara(enviadas, IdsDe(usuarios), agora)
      modifies this`cache
      ensures cache == inicio + mais
      ensures |mais| == if ok then Ativos(usuarios[..i + 1]) else 0
      ensures CriadasPara(mais, IdsDe(usuarios), agora)
    {
      ghost var antes := Ativos(usuarios[..i]);
      var e := Enviar(usuarios[i], mensagem, tipo, titulo, novoId, agora);
      assert Ativos(usuarios[..i]) == antes;
      ContagemMais(enviadas, if e.Ok? then enviadas + [e.value] else enviadas, usuarios, i, ok, e.Ok?);
      if e.Err? {
        return enviadas;
      }
      AnexarUm(inicio, enviadas, e.value);
      IdsDeContem(usuarios, i);
      CriadasParaMais(enviadas, e.value, IdsDe(usuarios), agora);
      return enviadas + [e.value];
    }

    /** `NotificacaoServico.enviar_em_lote`: an empty list is an error;
        otherwise `enviar` is tried for each user in turn, the failures are
        skipped, and the result lists what was sent, in order: one
        notification per active user when the content is acceptable, none
        otherwise. `novoId(i)` stands for the `uuid4()` of the i-th attempt. */
    method EnviarEmLote(usuarios: seq<Dyn<Usuario>>, mensagem: string, tipo: string, titulo: string,
                        novoId: nat -> string, agora: Instante)
      returns (r: Result<seq<Notificacao>, ErroServico>)
      modifies this`cache
      ensures usuarios == [] ==> r == Err(ListaVazia) && cache == old(cache)
      ensures usuarios != [] ==> r.Ok? && cache == old(cache) + r.value
      ensures r.Ok? ==> |r.value| == if ConteudoAceito(mensagem, tipo, titulo) then Ativos(usuarios) else 0
      ensures r.Ok? ==> forall k :: 0 <= k < |r.value| ==>
                r.value[k].criadaEm == agora && r.value[k].usuarioId in IdsDe(usuarios)
    {
      if usuarios == [] {
        return Err(ListaVazia);
      }
      ghost var ok := ConteudoAceito(mensagem, tipo, titulo);
      ghost var inicio := cache;
      var enviadas: seq<Notificacao> := [];
      for i := 0 to |usuarios|
        invariant cache == inicio + enviadas
        invariant |enviadas| == if ok then Ativos(usuarios[..i]) else 0
        invariant CriadasPara(enviadas, IdsDe(usuarios), agora)
      {
        enviadas := TentarEnviar(usuarios, i, ok, inicio, enviadas, mensagem, tipo, titulo, novoId(i), agora);
      }
      assert usuarios[..|usuarios|] == usuarios;
      CriadasParaIndices(enviadas, IdsDe(usuarios), agora);
      return Ok(enviadas);
    }

    /** `NotificacaoServico.buscar_por_tipo`: the notifications of this type
        among the user's 1000 newest, newest first. */
    method BuscarPorTipo(usuario: Dyn<Usuario>, tipo: Dyn<string>) returns (r: Result<seq<Notificacao>, ErroServico>)
      ensures r.Ok? <==> usuario.Is?
      ensures !usuario.Is? ==> r == ChecarUsuario(usuario).PropagateFailure()
      ensures r.Ok? ==> Recentes(r.value)
      ensures r.Ok? ==> forall n :: n in r.value <==>
                n in PrefixPy(OrdenarRecentes(DoUsuario(cache, usuario.val.usuarioId)), 1000) && n.IsTipo(tipo)
      ensures r.Ok? && tipo.Is? && N.TipoDe(Lower(Strip(tipo.val))).Some? ==>
                r.value == DoTipo(PrefixPy(OrdenarRecentes(DoUsuario(cache, usuario.val.usuarioId)), 1000),
                                  N.TipoDe(Lower(Strip(tipo.val))).value)
      ensures r.Ok? && !(tipo.Is? && N.TipoDe(Lower(Strip(tipo.val))).Some?) ==> r.value == []
      ensures r.Ok? ==>
                forall n: Notificacao :: multiset(r.value)[n] ==
                  if n.IsTipo(tipo) then multiset(PrefixPy(OrdenarRecentes(DoUsuario(cache, usuario.val.usuarioId)), 1000))[n]
                  else 0
    {
      var todas :- ListarTodas(usuario, 1000);
      if !tipo.Is? || N.TipoDe(Lower(Strip(tipo.val))).None? {
        forall n: Notificacao | n in todas
          ensures !n.IsTipo(tipo)
        {
          N.IsTipoDoProprioTipo(n, if tipo.Is? then tipo.val else []);
        }
        return Ok([]);
      }
      var alvo := N.TipoDe(Lower(Strip(tipo.val))).value;
      forall n: Notificacao | n in todas
        ensures n.IsTipo(tipo) <==> n.tipo == alvo
      {
        N.IsTipoDoProprioTipo(n, tipo.val);
      }
      DoTipoMembros(todas, alvo);
      forall n: Notificacao {
        DoTipoMultiplicidade(todas, alvo, n);
      }
      forall n: Notificacao {
        N.IsTipoDoProprioTipo(n, tipo.val);
      }
      return Ok(DoTipo(todas, alvo));
    }

    /** `NotificacaoServico.buscar_urgentes`: the user's unread notifications
        of an urgent type, newest first. */
    method BuscarUrgentes(usuario: Dyn<Usuario>) returns (r: Result<seq<Notificacao>, ErroServico>)
      ensures r.Ok? <==> usuario.Is?
      ensures !usuario.Is? ==> r == ChecarUsuario(usuario).PropagateFailure()
      ensures r.Ok? ==> Recentes(r.value)
      ensures r.Ok? ==> forall n :: n in r.value <==>
                n in cache && n.usuarioId == usuario.val.usuarioId && !n.lida && n.IsUrgente()
      ensures r.Ok? ==> r.value == Urgentes(OrdenarRecentes(NaoLidas(cache, usuario.val.usuarioId)))
      ensures r.Ok? ==>
                forall n: Notificacao :: multiset(r.value)[n] ==
                                            if n.IsUrgente() then multiset(NaoLidas(cache, usuario.val.usuarioId))[n] else 0
    {
      var naoLidas :- ListarNaoLidas(usuario);
      forall n: Notificacao {
        UrgentesMultiplicidade(naoLidas, n);
      }
      return Ok(Urgentes(naoLidas));
    }
  }
}
