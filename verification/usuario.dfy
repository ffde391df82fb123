/** `models/usuario.py` and the two enums it uses: a system user, the
    normalisation its constructor applies, its status and last-login updates,
    its role-based permissions and its dict form. Password hashing lives in
    module `Credenciais`. */
module Usuarios {
  import opened Wrappers
  import opened Texto
  import opened Dicionario

  /** `PerfilUsuario`. */
  datatype Perfil = Admin | Recepcionista | Veterinario

  /** `StatusUsuario`. */
  datatype StatusUsuario = Ativo | Inativo

  /** The enum's `.value`. */
  function ValorDoPerfil(p: Perfil): string {
    match p
    case Admin => "admin"
    case Recepcionista => "recepcionista"
    case Veterinario => "veterinario"
  }

  function ValorDoStatus(s: StatusUsuario): string {
    match s
    case Ativo => "ativo"
    case Inativo => "inativo"
  }

  const TodasAcoes: set<string> := {"visualizar", "criar", "editar", "excluir"}

  /** `PERMISSOES_POR_PERFIL`: every role has an entry, so the empty default
      is never reached. */
  function PermissoesDoPerfil(p: Perfil): set<string> {
    match p
    case Admin => TodasAcoes
    case Recepcionista => {"visualizar", "criar"}
    case Veterinario => {"visualizar"}
  }

  predicate LetraAscii(c: char) {
    IsUpperAscii(c) || IsLowerAscii(c)
  }

  /** `[a-zA-Z0-9._%+-]` */
  predicate CaractereLocal(c: char) {
    LetraAscii(c) || IsDigit(c) || c == '.' || c == '_' || c == '%' || c == '+' || c == '-'
  }

  /** `[a-zA-Z0-9.-]` */
  predicate CaractereDominio(c: char) {
    LetraAscii(c) || IsDigit(c) || c == '.' || c == '-'
  }

  /** The whole of `e` matches `[a-zA-Z0-9._%+-]+@[a-zA-Z0-9.-]+\.[a-zA-Z]{2,}`:
      an `@` at `i`, a `.` at `k` after at least one domain character, and at
      least two letters after it. */
  predicate FormaDeEmail(e: string) {
    exists i, k :: 0 < i < k < |e| && FormaDeEmailEm(e, i, k)
  }

  /** The match with the `@` at `i` and the last `.` at `k`. */
  predicate FormaDeEmailEm(e: string, i: int, k: int) {
    && 0 < i && i + 1 < k && k + 2 < |e| && e[i] == '@' && e[k] == '.'
    && (forall j :: 0 <= j < i ==> CaractereLocal(e[j]))
    && (forall j :: i < j < k ==> CaractereDominio(e[j]))
    && (forall j :: k < j < |e| ==> LetraAscii(e[j]))
  }

  /** `_validar_email`: non-empty and `EMAIL_REGEX.match`es; the regex's `$`
      also accepts one final newline. */
  function EmailValido(e: string): (b: bool)
    ensures b ==> '@' in e && CaractereLocal(e[0]) && !IsSpace(e[0])
  {
    if e == [] then false
    else if FormaDeEmail(e) then
      FormaDeEmailInicio(e);
      true
    else if e[|e| - 1] == '\n' && FormaDeEmail(e[..|e| - 1]) then
      FormaDeEmailInicio(e[..|e| - 1]);
      assert e[..|e| - 1] <= e;
      true
    else false
  }

  /** A string of the e-mail form starts with a local-part character and
      holds an `@`. */
  lemma FormaDeEmailInicio(e: string)
    requires FormaDeEmail(e)
    ensures '@' in e && CaractereLocal(e[0]) && !IsSpace(e[0])
  {
    var i, k :| 0 < i < k < |e| && FormaDeEmailEm(e, i, k);
    assert CaractereLocal(e[0]) && e[i] == '@';
  }

  datatype Erro =
    | NomeVazio
    | EmailInvalido
    | HashVazio
    | PerfilInvalido
    | StatusInvalido
    | UltimoLoginInvalido

  /** The identity and text fields the constructor normalises. */
  datatype Cadastro = Cadastro(usuarioId: string, nome: string, email: string, senhaHash: string)

  /** The normal form those fields are kept in: the name non-empty with single
      inner spaces, the e-mail trimmed, lower-case and valid, the hash trimmed
      and non-empty. */
  predicate Normalizado(c: Cadastro) {
    && c.nome != [] && Collapsed(c.nome)
    && EmailValido(c.email) && Strip(c.email) == c.email && Lower(c.email) == c.email
    && c.senhaHash != [] && Strip(c.senhaHash) == c.senhaHash
  }

  /** The text part of `Usuario.__init__`: rejects a blank name, then an
      e-mail that is invalid once trimmed and lower-cased, then a blank hash.
      `novoId` stands for `str(uuid4())`. */
  function NovoCadastro(nome: string, email: string, senhaHash: string, usuarioId: Option<string>, novoId: string): (r: Result<Cadastro, Erro>)
    ensures r.Ok? <==> !Blank(nome) && EmailValido(Lower(Strip(email))) && !Blank(senhaHash)
    ensures Blank(nome) ==> r == Err(NomeVazio)
    ensures !Blank(nome) && !EmailValido(Lower(Strip(email))) ==> r == Err(EmailInvalido)
    ensures !Blank(nome) && EmailValido(Lower(Strip(email))) && Blank(senhaHash) ==> r == Err(HashVazio)
    ensures r.Ok? ==> Normalizado(r.value)
    ensures r.Ok? ==> r.value.nome == CollapseSpaces(nome) && Words(r.value.nome) == Words(nome)
    ensures r.Ok? ==> r.value.email == Lower(Strip(email)) && r.value.senhaHash == Strip(senhaHash)
    ensures r.Ok? ==> NonSpace(r.value.senhaHash) == NonSpace(senhaHash)
    ensures r.Ok? ==> r.value.usuarioId == (if usuarioId.Some? then usuarioId.value else novoId)
  {
    var e := Lower(Strip(email));
    if Blank(nome) then Err(NomeVazio)
    else if !EmailValido(e) then Err(EmailInvalido)
    else if Blank(senhaHash) then Err(HashVazio)
    else
      NormalizarIdempotente(email);
      StripIdempotent(senhaHash);
      StripKeepsNonSpace(senhaHash);
      Ok(Cadastro(if usuarioId.Some? then usuarioId.value else novoId, CollapseSpaces(nome), e, Strip(senhaHash)))
  }

  class Usuario {
    const usuarioId: string
    const nome: string
    const email: string
    const senhaHash: string
    const perfil: Perfil
    var status: StatusUsuario
    var ultimoLogin: Option<Instante>

    /** The normalised fields, fixed at construction. */
    function Dados(): Cadastro {
      Cadastro(usuarioId, nome, email, senhaHash)
    }

    ghost predicate Valid() {
      Normalizado(Dados())
    }

    constructor (c: Cadastro, perfil: Perfil, status: StatusUsuario, ultimoLogin: Option<Instante>)
      requires Normalizado(c)
      ensures Valid() && Dados() == c
      ensures this.perfil == perfil && this.status == status && this.ultimoLogin == ultimoLogin
    {
      usuarioId := c.usuarioId;
      nome := c.nome;
      email := c.email;
      senhaHash := c.senhaHash;
      this.perfil := perfil;
      this.status := status;
      this.ultimoLogin := ultimoLogin;
    }

    /** `Usuario.__init__`: the text checks, then `perfil`, `status` and
        `ultimo_login` must have the right type (`None` allowed for the last). */
    static method Criar(nome: string, email: string, senhaHash: string, usuarioId: Option<string>, novoId: string,
                        perfil: Dyn<Perfil>, status: Dyn<StatusUsuario>, ultimoLogin: Dyn<Instante>)
      returns (r: Result<Usuario, Erro>)
      ensures NovoCadastro(nome, email, senhaHash, usuarioId, novoId).Err? ==>
                r == Err(NovoCadastro(nome, email, senhaHash, usuarioId, novoId).error)
      ensures NovoCadastro(nome, email, senhaHash, usuarioId, novoId).Ok? && !perfil.Is? ==> r == Err(PerfilInvalido)
      ensures NovoCadastro(nome, email, senhaHash, usuarioId, novoId).Ok? && perfil.Is? && !status.Is? ==>
                r == Err(StatusInvalido)
      ensures NovoCadastro(nome, email, senhaHash, usuarioId, novoId).Ok? && perfil.Is? && status.Is? && ultimoLogin.Other? ==>
                r == Err(UltimoLoginInvalido)
      ensures NovoCadastro(nome, email, senhaHash, usuarioId, novoId).Ok? && perfil.Is? && status.Is? && !ultimoLogin.Other? ==>
                r.Ok?
      ensures r.Ok? ==> fresh(r.value) && r.value.Valid()
      ensures r.Ok? ==> NovoCadastro(nome, email, senhaHash, usuarioId, novoId) == Ok(r.value.Dados())
      ensures r.Ok? ==> perfil == Is(r.value.perfil) && status == Is(r.value.status)
      ensures r.Ok? ==> r.value.ultimoLogin == (if ultimoLogin.Is? then Some(ultimoLogin.val) else None)
    {
      var c := NovoCadastro(nome, email, senhaHash, usuarioId, novoId);
      if c.Err? {
        return Err(c.error);
      }
      if !perfil.Is? {
        return Err(PerfilInvalido);
      }
      if !status.Is? {
        return Err(StatusInvalido);
      }
      if ultimoLogin.Other? {
        return Err(UltimoLoginInvalido);
      }
      var u := new Usuario(c.value, perfil.val, status.val, if ultimoLogin.Is? then Some(ultimoLogin.val) else None);
      return Ok(u);
    }

    predicate IsAtivo()
      reads this
    {
      status == Ativo
    }

    /** `Usuario.ativar`. */
    method Ativar()
      modifies this`status
      ensures status == Ativo
    {
      status := Ativo;
    }

    /** `Usuario.desativar`. */
    method Desativar()
      modifies this`status
      ensures status == Inativo
    {
      status := Inativo;
    }

    /** `Usuario.set_status`: a value that is not a `StatusUsuario` is
        rejected and leaves the status as it was. */
    method SetStatus(novo: Dyn<StatusUsuario>) returns (r: Result<(), Erro>)
      modifies this`status
      ensures novo.Is? ==> r.Ok? && status == novo.val
      ensures !novo.Is? ==> r == Err(StatusInvalido) && status == old(status)
    {
      if !novo.Is? {
        return Err(StatusInvalido);
      }
      status := novo.val;
      return Ok(());
    }

    /** `Usuario.registrar_ultimo_login`: `None` means now (`agora`); any
        other non-`datetime` is rejected and changes nothing. */
    method RegistrarUltimoLogin(dataHora: Dyn<Instante>, agora: Instante) returns (r: Result<(), Erro>)
      modifies this`ultimoLogin
      ensures dataHora.Other? ==> r == Err(UltimoLoginInvalido) && ultimoLogin == old(ultimoLogin)
      ensures !dataHora.Other? ==> r.Ok? && ultimoLogin == Some(if dataHora.Is? then dataHora.val else agora)
    {
      if dataHora.Other? {
        return Err(UltimoLoginInvalido);
      }
      ultimoLogin := Some(if dataHora.Is? then dataHora.val else agora);
      return Ok(());
    }

    /** `Usuario.pode`: an inactive user may do nothing; the action is
        trimmed and lower-cased, and a blank or non-string action is refused;
        an administrator may do anything else, other roles what their entry
        lists. */
    function Pode(acao: Dyn<string>): (b: bool)
      reads this
      ensures b <==> status == Ativo && acao.Is? && !Blank(acao.val)
                     && (perfil == Admin || Lower(Strip(acao.val)) in PermissoesDoPerfil(perfil))
    {
      if status != Ativo then false
      else if !acao.Is? then false
      else
        var a := Lower(Strip(acao.val));
        if a == [] then false
        else if perfil == Admin then true
        else a in PermissoesDoPerfil(perfil)
    }

    /** `Usuario.get_permissoes`. */
    function GetPermissoes(): (ps: set<string>)
      reads this
      ensures ps == if status == Ativo then PermissoesDoPerfil(perfil) else {}
      ensures ps <= TodasAcoes
      ensures status == Ativo ==> "visualizar" in ps
    {
      if status != Ativo then {}
      else if perfil == Admin then TodasAcoes
      else PermissoesDoPerfil(perfil)
    }

    /** `Usuario.to_dict`: the password hash is never part of it;
        `permissoes` is a list in the source, whose order is unspecified. */
    function ToDict(): (d: Dict)
      reads this
      ensures d.Keys == {"usuario_id", "nome", "email", "perfil", "status", "ultimo_login", "permissoes"}
      ensures d["permissoes"] == VStrSet(GetPermissoes())
      ensures d["usuario_id"] == VStr(usuarioId) && d["nome"] == VStr(nome) && d["email"] == VStr(email)
      ensures d["perfil"] == VStr(ValorDoPerfil(perfil)) && d["status"] == VStr(ValorDoStatus(status))
      ensures d["ultimo_login"] == if ultimoLogin.Some? then VIso(ultimoLogin.value) else VNull
    {
      map[
        "usuario_id" := VStr(usuarioId),
        "nome" := VStr(nome),
        "email" := VStr(email),
        "perfil" := VStr(ValorDoPerfil(perfil)),
        "status" := VStr(ValorDoStatus(status)),
        "ultimo_login" := (if ultimoLogin.Some? then VIso(ultimoLogin.value) else VNull),
        "permissoes" := VStrSet(GetPermissoes())]
    }
  }

  /** `pode` and `get_permissoes` agree on the four known actions for every
      role and status; a non-administrator may do exactly what
      `get_permissoes` lists, and an active administrator anything that is
      not blank. */
  lemma PodeConformePermissoes(u: Usuario, acao: string)
    ensures Lower(Strip(acao)) in TodasAcoes ==> (u.Pode(Is(acao)) <==> Lower(Strip(acao)) in u.GetPermissoes())
    ensures u.perfil != Admin ==> (u.Pode(Is(acao)) <==> Lower(Strip(acao)) in u.GetPermissoes())
    ensures u.perfil == Admin ==> (u.Pode(Is(acao)) <==> u.status == Ativo && !Blank(acao))
  {
  }
}
