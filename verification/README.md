# VTA clinic backend: verified model of the domain models and in-memory services

This project models the core of the VTA veterinary clinic scheduling backend
(`prototipo-vta/backend`) in Dafny: the domain models for rooms, users and
their credentials and permissions, addresses, pets, notifications and
appointments, and the two services that keep their data in memory, the pet
list of `PetServico` and the notification cache of `NotificacaoServico`.
Each model file follows the shape of its source. Constructors that only
validate and normalise become functions returning `Result`. Objects whose
fields are updated in place (`Usuario`, `Notificacao`, `Agendamento`, and
both services) become classes whose methods state their whole new state.
Loops in the source (`statusEm`, `_validar_ids`, the scans of the services)
become methods with loop invariants.

Module by module:

- `Salas` (`sala.dfy`): room construction, `statusEm`, and the dict round trip.
- `Usuarios` (`usuario.dfy`): user construction and normalisation, status
  changes, last login, `pode`, `get_permissoes` and `to_dict`.
- `Credenciais` (`credencial.dfy`): the `iterations$salt_hex$dk_hex` password
  format that `hash_senha` writes and `validar_senha` parses, and the legacy
  digest fallback. PBKDF2-HMAC-SHA256 (section 5.2 of RFC 8018) and SHA-256
  (FIPS 180-4) are uninterpreted, deterministic functions passed in as
  `Primitivas`.
- `Enderecos` (`endereco.dfy`): CEP normalisation, address construction,
  the two-line rendering and `to_dict`.
- `Pets` (`pet.dfy`): pet construction, the age in whole years, `to_dict`.
- `Notificacoes` (`notificacao.dfy`): the type whitelist, construction,
  read flag, type and urgency tests, preview, and the dict round trip.
- `ServicoNotificacoes` (`notificacao_servico.dfy`): `NotificacaoServico` on
  its cache path.
- `ServicoPets` (`pet_servico.dfy`): `PetServico` over its list of pets.
- `Agendamentos` (`agendamento.dfy`): appointment checks, initial control
  state, and the `to_dict`/`from_dict` round trip.
- Shared helpers:
  - `Texto` models the parts of Python's `str` the models rely on: `isspace`,
    `strip`, `lower`/`upper`, `isdigit`, `split`, `' '.join` and `s[:k]`.
  - `Codificacao` models `str(int)`, `int(str)`, `bytes.hex` and
    `bytes.fromhex`.
  - `Dicionario` models dict values, Python truthiness, `str()` of a value,
    and how a constructor's `not v or not v.strip()` reads a value of any type.
  - `Wrappers` holds `Option`, `Result`, and `Dyn`, which stands for an
    argument that the source tests with `isinstance`.

Clocks, `uuid4()` and `os.urandom` are parameters: `agora`/`hoje` for the
current instant or date, `novoId` for a fresh identifier, and `salt` for the
random salt. Instants are integers ordered like the `datetime`s they stand
for.

## Model

| member | source | states |
|---|---|---|
| Salas.NovaSala | TIC55-AGENDA-VTA-main/prototipo-vta/backend/models/sala.py:31-43 | Accepts exactly when `nome` and `tipo` are not blank and `ativa` is a bool; a blank name is reported before a blank type, and both before a non-bool `ativa`; the stored name and type are exactly `nome.strip()` and `tipo.strip()`; the id is the given value, or the fresh one when it is `None`. |
| Salas.StatusEm | TIC55-AGENDA-VTA-main/prototipo-vta/backend/models/sala.py:66-77 | The scan with early returns yields `Situacao`: blocked when inactive whatever the reservations, occupied exactly when some reservation with both ends covers the instant, free otherwise, including for a missing (`None`) list. |
| Salas.IntervaloFechado | TIC55-AGENDA-VTA-main/prototipo-vta/backend/models/sala.py:74 | Both ends of a reservation count as inside it: occupied exactly when `inicio <= t <= fim`, free exactly otherwise. |
| Salas.ReservaIncompletaIgnorada | TIC55-AGENDA-VTA-main/prototipo-vta/backend/models/sala.py:73 | A reservation lacking `inicio` or `fim` changes nothing wherever it stands in the list. |
| Salas.SituacaoIgnoraOrdem | TIC55-AGENDA-VTA-main/prototipo-vta/backend/models/sala.py:72-77 | The status depends only on which reservations are present: reordering, duplicating or overlapping them changes nothing. |
| Salas.ToDict | TIC55-AGENDA-VTA-main/prototipo-vta/backend/models/sala.py:79-86 | Exactly the keys `sala_id`, `nome`, `tipo`, `ativa`, holding the room's id, trimmed name and type, and flag. |
| Salas.FromDict | TIC55-AGENDA-VTA-main/prototipo-vta/backend/models/sala.py:88-96 | A missing `nome`, then a missing `tipo`, is a key error; then the constructor's order: a falsy or blank name (including `None`) is `NomeVazio`, a truthy non-string name has no `strip` and is refused, and likewise for the type; it succeeds exactly when both are non-blank strings and `ativa` (default true) is a bool; the stored name and type are the dict's values trimmed and the id is the dict's `sala_id` of any type, or a fresh one when it is absent or `None`. |
| Salas.DictRoundTrip | TIC55-AGENDA-VTA-main/prototipo-vta/backend/models/sala.py:88-96 | `from_dict(to_dict(s))` rebuilds every constructed room exactly, id included, because its fields are already trimmed. |
| Usuarios.NovoCadastro | TIC55-AGENDA-VTA-main/prototipo-vta/backend/models/usuario.py:54-77 | Accepts exactly when the name is not blank, the trimmed lower-cased email is valid and the hash is not blank, checked in that order with one error each; the stored name is `' '.join(nome.strip().split())` and has the same words as the input; the email is `email.strip().lower()`, the hash `senha_hash.strip()`; the id is the given one or the fresh one. |
| Usuarios.EmailValido | TIC55-AGENDA-VTA-main/prototipo-vta/backend/models/usuario.py:83-85 | A valid email contains `@` and starts with a local-part character, so it is never blank. |
| Usuarios.Usuario.Criar | TIC55-AGENDA-VTA-main/prototipo-vta/backend/models/usuario.py:37-80 | After the text checks, a non-`PerfilUsuario` role, then a non-`StatusUsuario` status, then a `ultimo_login` that is neither a datetime nor None is refused; on success the new user holds the normalised fields, role, status and last login. |
| Usuarios.Usuario.constructor | TIC55-AGENDA-VTA-main/prototipo-vta/backend/models/usuario.py:74-80 | Stores the normalised fields, role, status and last login as given. |
| Usuarios.Usuario.Ativar | TIC55-AGENDA-VTA-main/prototipo-vta/backend/models/usuario.py:187-189 | Sets the status to active and changes nothing else. |
| Usuarios.Usuario.Desativar | TIC55-AGENDA-VTA-main/prototipo-vta/backend/models/usuario.py:191-193 | Sets the status to inactive and changes nothing else. |
| Usuarios.Usuario.SetStatus | TIC55-AGENDA-VTA-main/prototipo-vta/backend/models/usuario.py:195-207 | A `StatusUsuario` becomes the status; anything else is refused and leaves the status unchanged; nothing else changes. |
| Usuarios.Usuario.RegistrarUltimoLogin | TIC55-AGENDA-VTA-main/prototipo-vta/backend/models/usuario.py:221-231 | `None` records the current instant, a datetime records itself, anything else is refused and leaves the last login unchanged. |
| Usuarios.Usuario.Pode | TIC55-AGENDA-VTA-main/prototipo-vta/backend/models/usuario.py:239-275 | True exactly when the user is active, the action is a string that is not blank, and the user is an administrator or the trimmed lower-cased action is in the role's set. |
| Usuarios.Usuario.GetPermissoes | TIC55-AGENDA-VTA-main/prototipo-vta/backend/models/usuario.py:277-293 | Exactly the role's set when active (the four actions for an administrator) and the empty set otherwise; always a subset of the four actions, with `visualizar` for every active user. |
| Usuarios.PodeConformePermissoes | TIC55-AGENDA-VTA-main/prototipo-vta/backend/models/usuario.py:254-293 | `pode` and `get_permissoes` agree on the four actions for every role and status; for a non-administrator they agree on every action; an administrator may do exactly what is non-blank while active. |
| Usuarios.Usuario.ToDict | TIC55-AGENDA-VTA-main/prototipo-vta/backend/models/usuario.py:304-312 | The dict has exactly seven keys and none of them is the password hash; `usuario_id`, `nome` and `email` hold the user's fields, `perfil` and `status` the enum values' texts, `ultimo_login` the ISO time or null, and `permissoes` the set `get_permissoes` gives. |
| Credenciais.HashSenha | TIC55-AGENDA-VTA-main/prototipo-vta/backend/models/usuario.py:121-129 | Succeeds exactly for a non-blank password and an iteration count from 100000 up to the KDF's limit; a blank password is reported first (`SenhaVazia`), then a low count (`IteracoesBaixas`), then a count above the KDF's limit (`IteracoesExcessivas`, the OverflowError of `pbkdf2_hmac`); the result splits at `$` into the decimal count, 32 hex digits of salt and 64 hex digits of key. |
| Credenciais.LerFormatoHash | TIC55-AGENDA-VTA-main/prototipo-vta/backend/models/usuario.py:156-163 | The stored text splits back into its three fields (for any `maxsplit` of at least 2); salt and key parse back to the bytes written, and the count parses back to itself unless its decimal text exceeds CPython's 4300-digit limit on `int()`. |
| Credenciais.SplitTres | TIC55-AGENDA-VTA-main/prototipo-vta/backend/models/usuario.py:156 | Three `$`-free fields joined by `$` split back into exactly those fields. |
| Credenciais.SemCifrao | TIC55-AGENDA-VTA-main/prototipo-vta/backend/models/usuario.py:129 | Neither the decimal count nor hexadecimal text contains a `$`, so the separator is unambiguous. |
| Credenciais.CifraoPresente | TIC55-AGENDA-VTA-main/prototipo-vta/backend/models/usuario.py:155-157 | Text that splits into more than one field contains the separator. |
| Credenciais.VerificarPbkdf2 | TIC55-AGENDA-VTA-main/prototipo-vta/backend/models/usuario.py:154-171 | The `$` branch: anything but `False` needs three fields that parse as an int and two hex strings; it raises `OverflowError` exactly when they parse and the count is outside the KDF's accepted range; when they parse and the count is in range, the answer is exactly whether the count is positive and the key recomputed with the stored salt and count equals the stored key. |
| Credenciais.ValidarSenhaComoEscrito | TIC55-AGENDA-VTA-main/prototipo-vta/backend/models/usuario.py:147-179 | `validar_senha` as written: a non-string or empty argument gives `False`; a non-empty password and a hash containing `$` give exactly the PBKDF2 branch's outcome (so it can raise only there); a hash without `$` is compared with the SHA-256 hex digest of the password. |
| Credenciais.ValidarSenha | TIC55-AGENDA-VTA-main/prototipo-vta/backend/models/usuario.py:132-179 | The corrected checker returns true exactly when the written one returns true, and false everywhere else, including where the written one raises. |
| Credenciais.VerificarFormato | TIC55-AGENDA-VTA-main/prototipo-vta/backend/models/usuario.py:160-171 | On a text in the stored format the PBKDF2 branch returns false when the count's decimal text is over the `int()` digit limit, raises `OverflowError` when the count exceeds the KDF's limit, returns false for a zero count, and otherwise compares the recomputed key with the stored one. |
| Credenciais.ValidarFormato | TIC55-AGENDA-VTA-main/prototipo-vta/backend/models/usuario.py:153-171 | For a count the KDF accepts, a stored-format text accepts exactly the passwords whose recomputed key equals the stored key. |
| Credenciais.ValidarHashGerado | TIC55-AGENDA-VTA-main/prototipo-vta/backend/models/usuario.py:121-171 | A hash written by `hash_senha` validates exactly the passwords with the same derived key; in particular the password it was made from. |
| Credenciais.ValidarLegado | TIC55-AGENDA-VTA-main/prototipo-vta/backend/models/usuario.py:175-176 | Text without `$` validates exactly the password whose SHA-256 hex digest it is, and never raises. |
| Credenciais.ValidarPoucosCampos | TIC55-AGENDA-VTA-main/prototipo-vta/backend/models/usuario.py:155-158 | Text with a `$` that does not split into three fields returns false. |
| Credenciais.OverflowEscapa | TIC55-AGENDA-VTA-main/prototipo-vta/backend/models/usuario.py:161-171 | As written, a well-formed text whose count exceeds the KDF's limit (and whose decimal text is within the `int()` digit limit) makes `validar_senha` raise `OverflowError` instead of returning false; the corrected checker returns false. |
| Credenciais.DecimalDoExemplo | TIC55-AGENDA-VTA-main/prototipo-vta/backend/models/usuario.py:161 | The count field of the counterexample denotes 2^31. |
| Credenciais.OverflowExemplo | TIC55-AGENDA-VTA-main/prototipo-vta/backend/models/usuario.py:153-179 | `validar_senha("2147483648$00$00", "x")` raises as written. |
| Credenciais.ValidarSenhaConcorda | TIC55-AGENDA-VTA-main/prototipo-vta/backend/models/usuario.py:147-179 | The corrected checker gives the written one's answer wherever that one returns, and false where it would raise. |
| Codificacao.NatToDecimal | TIC55-AGENDA-VTA-main/prototipo-vta/backend/models/usuario.py:129 | `str(n)`: non-empty digits with no leading zero whose value is `n`. |
| Codificacao.ParseNatToDecimal | TIC55-AGENDA-VTA-main/prototipo-vta/backend/models/usuario.py:161 | `int(str(n)) == n` for every natural `n` whose decimal text has at most 4300 digits; a longer text is refused, as CPython's `int()` does. |
| Codificacao.ParseInt | TIC55-AGENDA-VTA-main/prototipo-vta/backend/models/usuario.py:161 | `int(s)`: a blank text never parses; a non-empty text of digits denotes its decimal value when it has at most 4300 digits and is refused otherwise. |
| Codificacao.PadZeros | TIC55-AGENDA-VTA-main/prototipo-vta/backend/models/usuario.py:129 | Zero-padding keeps the decimal value and gives exactly the width when the number fits in it. |
| Codificacao.DezDigitos | TIC55-AGENDA-VTA-main/prototipo-vta/backend/models/usuario.py:121-129 | Every count the KDF accepts has at most ten decimal digits, far below the `int()` digit limit. |
| Codificacao.FromHex | TIC55-AGENDA-VTA-main/prototipo-vta/backend/models/usuario.py:162-163 | `bytes.fromhex(s)`: at most one byte per two characters, and ASCII whitespace alone gives no bytes. |
| Codificacao.ToHex | TIC55-AGENDA-VTA-main/prototipo-vta/backend/models/usuario.py:129 | `bytes.hex()`: two lower-case hex digits per byte. |
| Codificacao.FromHexToHex | TIC55-AGENDA-VTA-main/prototipo-vta/backend/models/usuario.py:162-163 | `bytes.fromhex(b.hex()) == b` for every byte string. |
| Enderecos.ValidarCep | TIC55-AGENDA-VTA-main/prototipo-vta/backend/models/endereco.py:41-49 | Some exactly when the input has eight digits; the result is `DDDDD-DDD` holding those digits in order. |
| Enderecos.ValidarCepIdempotente | TIC55-AGENDA-VTA-main/prototipo-vta/backend/models/endereco.py:46-49 | Normalising a normalised CEP, or its bare digits, gives the same CEP back. |
| Enderecos.NovoEndereco | TIC55-AGENDA-VTA-main/prototipo-vta/backend/models/endereco.py:18-39 | Accepts exactly when street, district and city are not blank, the trimmed UF has two characters and the CEP has eight digits, with one error each in that order; the stored street, number, district and city are exactly the inputs' `strip()`, the UF is `uf.strip().upper()`, the CEP is what `_validar_cep` returns (same digits), the client id is kept and the id is the given one or the fresh one. |
| Enderecos.UfNormalizada | TIC55-AGENDA-VTA-main/prototipo-vta/backend/models/endereco.py:38 | A two-character trimmed UF stays free of whitespace after upper-casing. |
| Enderecos.LowerUpper | TIC55-AGENDA-VTA-main/prototipo-vta/backend/models/endereco.py:38 | Upper-casing changes only the case of letters. |
| Enderecos.LinhasDoEndereco | TIC55-AGENDA-VTA-main/prototipo-vta/backend/models/endereco.py:57-62 | For an address whose street, number, district and city contain no newline, the full address splits at `\n` into exactly two lines: `rua, numero - bairro`, then `cidade/UF - CEP: cep`. |
| Enderecos.EnderecoCompleto | TIC55-AGENDA-VTA-main/prototipo-vta/backend/models/endereco.py:57-62 | The full address is as long as its fields plus the 15 characters of punctuation; it starts with the street, ends with the CEP, and has its line break right after `rua, numero - bairro`. |
| Enderecos.ToDict | TIC55-AGENDA-VTA-main/prototipo-vta/backend/models/endereco.py:64-74 | Exactly the eight keys, each holding its field (`uuid` the id), with `cliente_id` null when absent. |
| Pets.NovoPet | TIC55-AGENDA-VTA-main/prototipo-vta/backend/models/pet.py:18-31 | Accepts exactly when the name and species are not blank and the birth date is a date, with one error each in that order; name and species are stored as `strip()` of the inputs, the breed as `raca.strip()` or empty when missing; the client id is kept and the id is the given one or the fresh one. |
| Pets.Idade | TIC55-AGENDA-VTA-main/prototipo-vta/backend/models/pet.py:39-53 | The age in whole years: the greatest number of anniversaries that lie strictly before today. |
| Pets.CalcularIdade | TIC55-AGENDA-VTA-main/prototipo-vta/backend/models/pet.py:54-62 | `calcular_idade` as written: the difference of the years, or one less; exactly the difference when this year's birthday lies strictly before today. |
| Pets.CalcularIdadeCorreta | TIC55-AGENDA-VTA-main/prototipo-vta/backend/models/pet.py:54-62 | For every birth date before today the written computation equals the age in whole years. |
| Pets.CalcularIdadeNascidoHoje | TIC55-AGENDA-VTA-main/prototipo-vta/backend/models/pet.py:55-60 | For a pet born today the written computation gives -1, while the age is 0. |
| Pets.Iso | TIC55-AGENDA-VTA-main/prototipo-vta/backend/models/pet.py:77 | `date.isoformat()`: ten characters, with dashes at positions 4 and 7 and digits elsewhere; the three digit groups denote the year, month and day. |
| Pets.ToDict | TIC55-AGENDA-VTA-main/prototipo-vta/backend/models/pet.py:64-79 | Exactly the seven keys holding the id, client id, name, species, breed, ISO birth date, and `idade` as `calcular_idade()` computes it; for a pet born before today that is the age in whole years, non-negative. |
| Notificacoes.TipoDe | TIC55-AGENDA-VTA-main/prototipo-vta/backend/models/notificacao.py:20-24 | Answers which of the seven types a name denotes, or none when it is not in the whitelist. |
| Notificacoes.MesmoNome | TIC55-AGENDA-VTA-main/prototipo-vta/backend/models/notificacao.py:20-24 | The seven type names are pairwise distinct. |
| Notificacoes.TipoDeNome | TIC55-AGENDA-VTA-main/prototipo-vta/backend/models/notificacao.py:58-62 | Looking a type's name up gives that type back. |
| Notificacoes.NomeNormal | TIC55-AGENDA-VTA-main/prototipo-vta/backend/models/notificacao.py:55 | Every type name is already trimmed and lower-cased. |
| Notificacoes.LerTipo | TIC55-AGENDA-VTA-main/prototipo-vta/backend/models/notificacao.py:54-61 | A non-string or blank type is `Tipo não pode ser vazio`, a trimmed lower-cased name outside the whitelist is `Tipo inválido`, and otherwise the type whose name is that normalised text. |
| Notificacoes.NovoConteudo | TIC55-AGENDA-VTA-main/prototipo-vta/backend/models/notificacao.py:43-83 | Accepts exactly when the user id is present, the type is a string whose trimmed lower-cased form is in the whitelist, title and message are not blank and the creation time is a datetime or `None`; the errors come in that order (user id, the type's own error, title, message, time); title and message are stored as their `strip()`; the id is the given one or the fresh one; the creation time is the given one or now. |
| Notificacoes.Notificacao.Criar | TIC55-AGENDA-VTA-main/prototipo-vta/backend/models/notificacao.py:26-88 | After the content checks, a non-boolean `lida` is refused; on success the notification holds the checked content and the read flag. |
| Notificacoes.Notificacao.constructor | TIC55-AGENDA-VTA-main/prototipo-vta/backend/models/notificacao.py:43-88 | Stores the checked content and read flag. |
| Notificacoes.Notificacao.MarcarComoLida | TIC55-AGENDA-VTA-main/prototipo-vta/backend/models/notificacao.py:110-112 | Sets the read flag and changes nothing else; so marking twice is marking once. |
| Notificacoes.Notificacao.MarcarComoNaoLida | TIC55-AGENDA-VTA-main/prototipo-vta/backend/models/notificacao.py:114-116 | Clears the read flag and changes nothing else. |
| Notificacoes.Notificacao.IsLida | TIC55-AGENDA-VTA-main/prototipo-vta/backend/models/notificacao.py:118-120 | The read flag. |
| Notificacoes.Notificacao.IsNaoLida | TIC55-AGENDA-VTA-main/prototipo-vta/backend/models/notificacao.py:122-124 | The opposite of `is_lida`. |
| Notificacoes.LidaComplementar | TIC55-AGENDA-VTA-main/prototipo-vta/backend/models/notificacao.py:118-124 | `is_lida` and `is_nao_lida` always disagree. |
| Notificacoes.IsTipoDoProprioTipo | TIC55-AGENDA-VTA-main/prototipo-vta/backend/models/notificacao.py:128-140 | `is_tipo(t)` holds exactly when `t` is a string whose trimmed lower-cased form is the notification's type name; so it is of its own type's name. |
| Notificacoes.UrgenteSeErroOuAlerta | TIC55-AGENDA-VTA-main/prototipo-vta/backend/models/notificacao.py:142-144 | `is_urgente` holds exactly when the type is `erro` or `alerta`. |
| Notificacoes.Notificacao.GetPreview | TIC55-AGENDA-VTA-main/prototipo-vta/backend/models/notificacao.py:202-214 | The message itself when it fits; otherwise `mensagem[:max_chars]` right-trimmed, then `...`: the kept text is a prefix of that slice, what was cut from the slice is whitespace only, and the kept text does not end in whitespace; never longer than `max_chars + 3`. |
| Notificacoes.ParaDict | TIC55-AGENDA-VTA-main/prototipo-vta/backend/models/notificacao.py:148-163 | Exactly the seven keys; their values are stated by `ParaDictCampos`. |
| Notificacoes.LerDict | TIC55-AGENDA-VTA-main/prototipo-vta/backend/models/notificacao.py:165-198 | A missing required key is the first error, in the order `usuario_id`, `tipo`, `titulo`, `mensagem`; a `None` user id is refused after the id is read; success needs string title and message and a known type; then the user id is `str()` of the dict's, the type is the one the dict's text names, title and message are the dict's texts trimmed, the id is `str()` of the dict's `notificacao_id` or the fresh one when it is absent or null, the creation time is the dict's ISO value or now, and `lida` is the dict's flag (false when absent). |
| Notificacoes.LerPresentes | TIC55-AGENDA-VTA-main/prototipo-vta/backend/models/notificacao.py:186-198 | With the four required keys present: the `criada_em`, id and user-id conversions and then the constructor, with the same results as `LerDict` states field by field. |
| Notificacoes.Construir | TIC55-AGENDA-VTA-main/prototipo-vta/backend/models/notificacao.py:188-196 | The constructor applied to dict values: it succeeds only on string title and message and a known type, stores them trimmed, keeps the user id, takes the given id or the fresh one and the given time or now, and takes `lida` only when it is a bool. |
| Notificacoes.DictRoundTrip | TIC55-AGENDA-VTA-main/prototipo-vta/backend/models/notificacao.py:148-198 | `from_dict(to_dict())` gives back the same content and read flag. |
| Notificacoes.ParaDictCampos | TIC55-AGENDA-VTA-main/prototipo-vta/backend/models/notificacao.py:148-163 | `to_dict` writes the content's id, user id, type name, title and message as text, the creation time as ISO text and the read flag as a bool. |
| Notificacoes.LerDictDeCampos | TIC55-AGENDA-VTA-main/prototipo-vta/backend/models/notificacao.py:165-198 | Any dictionary (not only one `to_dict` made) holding a normalised content's fields under those keys is read back as exactly that content and flag. |
| Notificacoes.ConstruirComTextos | TIC55-AGENDA-VTA-main/prototipo-vta/backend/models/notificacao.py:190-198 | The constructor call and the `lida` flag once title and message are filled texts: a result is valid content with the texts trimmed, the given user and id (or the fresh one), the given time (or now), and the `lida` value exactly when it is a bool. |
| Notificacoes.NovoConteudoDeValido | TIC55-AGENDA-VTA-main/prototipo-vta/backend/models/notificacao.py:43-83 | The constructor accepts already checked content unchanged. |
| ServicoNotificacoes.ChecarUsuario | TIC55-AGENDA-VTA-main/prototipo-vta/backend/services/notificacao_servico.py:52-56 | Passes exactly a `Usuario`; `None` and other values get their own errors. |
| ServicoNotificacoes.Admissao | TIC55-AGENDA-VTA-main/prototipo-vta/backend/services/notificacao_servico.py:52-72 | Succeeds exactly when the user is an active `Usuario`, the message is not blank and the notification constructor accepts the arguments; the result is checked content. |
| ServicoNotificacoes.AdmissaoOrdem | TIC55-AGENDA-VTA-main/prototipo-vta/backend/services/notificacao_servico.py:52-72 | The checks come in the source's order (null, type, inactive, blank message, notification type), and what is created belongs to the user, carries the new id and was created now. |
| ServicoNotificacoes.NotificacaoServico.constructor | TIC55-AGENDA-VTA-main/prototipo-vta/backend/services/notificacao_servico.py:19-28 | The cache starts empty. |
| ServicoNotificacoes.NotificacaoServico.Enviar | TIC55-AGENDA-VTA-main/prototipo-vta/backend/services/notificacao_servico.py:30-81 | Succeeds exactly when admissible; then exactly one new unread notification is appended to the cache, owned by the user, created now and carrying the new id; on failure the cache is unchanged and the error is the first failing check. |
| ServicoNotificacoes.OrdenarRecentes | TIC55-AGENDA-VTA-main/prototipo-vta/backend/services/notificacao_servico.py:119-123 | The result is newest first and a permutation of the input. |
| ServicoNotificacoes.Inserir | TIC55-AGENDA-VTA-main/prototipo-vta/backend/services/notificacao_servico.py:119-123 | Insertion adds exactly one element and keeps a newest-first list newest first. |
| ServicoNotificacoes.DoUsuario | TIC55-AGENDA-VTA-main/prototipo-vta/backend/services/notificacao_servico.py:152-155 | Keeps exactly the cache entries of the user (as a membership statement), never more entries than the cache. |
| ServicoNotificacoes.NaoLidas | TIC55-AGENDA-VTA-main/prototipo-vta/backend/services/notificacao_servico.py:113-116 | Keeps exactly the user's unread cache entries (as a membership statement), never more entries than the cache. |
| ServicoNotificacoes.NaoLidasOrdenadas | TIC55-AGENDA-VTA-main/prototipo-vta/backend/services/notificacao_servico.py:113-123 | The sorted unread list holds exactly the user's unread cache entries. |
| ServicoNotificacoes.NotificacaoServico.ListarNaoLidas | TIC55-AGENDA-VTA-main/prototipo-vta/backend/services/notificacao_servico.py:83-125 | After the user check, exactly the user's unread notifications sorted newest first (the stable sort of the filtered cache), the same multiset as the filter. |
| ServicoNotificacoes.NotificacaoServico.ListarTodas | TIC55-AGENDA-VTA-main/prototipo-vta/backend/services/notificacao_servico.py:127-164 | After the user check, a prefix (Python slice `[:limite]`) of the user's notifications newest first; for a non-negative limit its length is the smaller of the limit and the count. |
| ServicoNotificacoes.Posicao | TIC55-AGENDA-VTA-main/prototipo-vta/backend/services/notificacao_servico.py:187-188 | The position of the first notification with the id, or none when no notification has it. |
| ServicoNotificacoes.NotificacaoServico.MarcarComoLida | TIC55-AGENDA-VTA-main/prototipo-vta/backend/services/notificacao_servico.py:166-192 | True exactly when some notification has the id; then the first one is read; no other notification's read flag changes. |
| ServicoNotificacoes.NotificacaoServico.MarcarCada | TIC55-AGENDA-VTA-main/prototipo-vta/backend/services/notificacao_servico.py:215-216 | Every notification of the list ends up read. |
| ServicoNotificacoes.NenhumaNaoLida | TIC55-AGENDA-VTA-main/prototipo-vta/backend/services/notificacao_servico.py:213-220 | A user with no unread notification in the cache has an empty unread list. |
| ServicoNotificacoes.NotificacaoServico.MarcarTodasComoLidas | TIC55-AGENDA-VTA-main/prototipo-vta/backend/services/notificacao_servico.py:194-220 | Returns the user's prior unread count; afterwards every notification of the user is read and the unread list is empty; other users' flags are untouched. |
| ServicoNotificacoes.NotificacaoServico.Excluir | TIC55-AGENDA-VTA-main/prototipo-vta/backend/services/notificacao_servico.py:222-241 | True exactly when some notification has the id; then exactly the first one is removed; otherwise the cache is unchanged. |
| ServicoNotificacoes.NotificacaoServico.ContarNaoLidas | TIC55-AGENDA-VTA-main/prototipo-vta/backend/services/notificacao_servico.py:277-296 | The number of the user's unread notifications; zero exactly when all of the user's notifications are read. |
| ServicoNotificacoes.Ativos | TIC55-AGENDA-VTA-main/prototipo-vta/backend/services/notificacao_servico.py:322-328 | The number of active users in the list, never more than its length. |
| ServicoNotificacoes.AtivosPasso | TIC55-AGENDA-VTA-main/prototipo-vta/backend/services/notificacao_servico.py:322-328 | Each user adds one to the count exactly when active. |
| ServicoNotificacoes.NotificacaoServico.TentarEnviar | TIC55-AGENDA-VTA-main/prototipo-vta/backend/services/notificacao_servico.py:323-328 | One turn of the batch loop: the cache stays the cache before the batch followed by what the batch sent; this turn sends one notification exactly when the content is acceptable and the user is an active user, so the count stays the number of active users seen; everything sent is created now for one of the given users. |
| ServicoNotificacoes.NotificacaoServico.EnviarEmLote | TIC55-AGENDA-VTA-main/prototipo-vta/backend/services/notificacao_servico.py:298-330 | An empty list is an error and changes nothing; otherwise the cache grows by exactly the returned notifications, one per active user when the content is acceptable and none otherwise; each returned notification is created now and belongs to one of the given users (its `usuarioId` is in `IdsDe(usuarios)`). |
| ServicoNotificacoes.IdsDeMembros | TIC55-AGENDA-VTA-main/prototipo-vta/backend/services/notificacao_servico.py:323-328 | An id is in `IdsDe(usuarios)` exactly when some `Usuario` of the list has that id, so the batch's ownership clause names one of the given users. |
| ServicoNotificacoes.CriadasParaIndices | TIC55-AGENDA-VTA-main/prototipo-vta/backend/services/notificacao_servico.py:323-328 | The running invariant of the batch, kept as a recursive predicate, means that every element was created now for an id in the set. |
| ServicoNotificacoes.DoTipo | TIC55-AGENDA-VTA-main/prototipo-vta/backend/services/notificacao_servico.py:353 | Keeps exactly the notifications of the type (as a membership statement); a newest-first input gives a newest-first result. |
| ServicoNotificacoes.DoTipoMembros | TIC55-AGENDA-VTA-main/prototipo-vta/backend/services/notificacao_servico.py:353 | Membership in the filtered list is membership in the input plus the type test. |
| ServicoNotificacoes.DoTipoMultiplicidade | TIC55-AGENDA-VTA-main/prototipo-vta/backend/services/notificacao_servico.py:353 | The filter keeps every copy of a notification of the type and no copy of any other. |
| ServicoNotificacoes.NotificacaoServico.BuscarPorTipo | TIC55-AGENDA-VTA-main/prototipo-vta/backend/services/notificacao_servico.py:332-353 | For a known type, exactly the type filter of the user's 1000 newest, in that order; for a non-string or unknown type, the empty list; in every case each notification of the 1000 newest of that type appears as often as there, and no other. |
| ServicoNotificacoes.Urgentes | TIC55-AGENDA-VTA-main/prototipo-vta/backend/services/notificacao_servico.py:375 | Keeps exactly the urgent notifications (as a membership statement); a newest-first input gives a newest-first result. |
| ServicoNotificacoes.UrgentesMultiplicidade | TIC55-AGENDA-VTA-main/prototipo-vta/backend/services/notificacao_servico.py:375 | The filter keeps every copy of an urgent notification and no copy of any other. |
| ServicoNotificacoes.NotificacaoServico.BuscarUrgentes | TIC55-AGENDA-VTA-main/prototipo-vta/backend/services/notificacao_servico.py:355-375 | Exactly the urgent filter of the user's unread notifications sorted newest first; each urgent unread notification of the user appears as often as in the cache's unread filter, and no other. |
| ServicoPets.Primeiro | TIC55-AGENDA-VTA-main/prototipo-vta/backend/services/pet_servico.py:51-52 | The position of the first pet with the id, or none exactly when no pet has it. |
| ServicoPets.DoCliente | TIC55-AGENDA-VTA-main/prototipo-vta/backend/services/pet_servico.py:68 | Keeps exactly the pets of the client. |
| ServicoPets.DoClienteAcrescentar | TIC55-AGENDA-VTA-main/prototipo-vta/backend/services/pet_servico.py:68 | After appending a pet, the client's list gains that pet at its end exactly when it belongs to the client; so the list keeps the order of insertion. |
| ServicoPets.AcrescentarDistinto | TIC55-AGENDA-VTA-main/prototipo-vta/backend/services/pet_servico.py:32-35 | Appending a pet with a new id keeps the ids distinct, and that pet is then the one found under its id. |
| ServicoPets.SubstituirDistinto | TIC55-AGENDA-VTA-main/prototipo-vta/backend/services/pet_servico.py:51-54 | Replacing a pet by one with the same id keeps the ids distinct, and the new pet is then found under that id. |
| ServicoPets.RemoverDistinto | TIC55-AGENDA-VTA-main/prototipo-vta/backend/services/pet_servico.py:105-110 | Removing the pet with an id from a list of distinct ids leaves no pet with that id and the rest distinct. |
| ServicoPets.Remover | TIC55-AGENDA-VTA-main/prototipo-vta/backend/services/pet_servico.py:108 | `pop(i)`: one element shorter, the elements before `i` in place and the later ones shifted down by one. |
| ServicoPets.PetServico.constructor | TIC55-AGENDA-VTA-main/prototipo-vta/backend/services/pet_servico.py:14-16 | No pets. |
| ServicoPets.PetServico.Criar | TIC55-AGENDA-VTA-main/prototipo-vta/backend/services/pet_servico.py:18-36 | A present id is refused and nothing changes; otherwise the pet is appended last; distinct ids stay distinct. |
| ServicoPets.PetServico.Atualizar | TIC55-AGENDA-VTA-main/prototipo-vta/backend/services/pet_servico.py:38-56 | An absent id is refused and nothing changes; otherwise the first pet with the id is replaced in place and every other position is unchanged; distinct ids stay distinct. |
| ServicoPets.PetServico.BuscarPorCliente | TIC55-AGENDA-VTA-main/prototipo-vta/backend/services/pet_servico.py:58-68 | The client's pets in list order: exactly the pets with that client id, as `DoCliente` states. |
| ServicoPets.PetServico.BuscarPorUuid | TIC55-AGENDA-VTA-main/prototipo-vta/backend/services/pet_servico.py:70-84 | None exactly when no pet has the id; otherwise the first pet with it. |
| ServicoPets.PetServico.ListarTodos | TIC55-AGENDA-VTA-main/prototipo-vta/backend/services/pet_servico.py:86-93 | The current contents, unchanged. |
| ServicoPets.PetServico.Deletar | TIC55-AGENDA-VTA-main/prototipo-vta/backend/services/pet_servico.py:95-110 | True exactly when some pet has the id; then exactly the first such pet is removed; otherwise nothing changes; with distinct ids none with that id remains. |
| Agendamentos.Validar | TIC55-AGENDA-VTA-main/prototipo-vta/backend/models/agendamento.py:31-32 | Accepts exactly when the start is before the end and no identifier is refused; a bad date pair is reported first, then the error of the first refused identifier. |
| Agendamentos.PrimeiroRecusado | TIC55-AGENDA-VTA-main/prototipo-vta/backend/models/agendamento.py:57-61 | The position of the first identifier that is falsy, blank or without `strip`, or the count when there is none. |
| Agendamentos.ValidarIds | TIC55-AGENDA-VTA-main/prototipo-vta/backend/models/agendamento.py:57-61 | The scan that stops at the first refused identifier succeeds exactly when all are filled, and otherwise reports that identifier's error: empty for a falsy or blank one, no `strip` for a truthy non-string. |
| Agendamentos.Agendamento.constructor | TIC55-AGENDA-VTA-main/prototipo-vta/backend/models/agendamento.py:35-50 | Stores the arguments and starts with status `AGENDADO`, created now, not cancelled. |
| Agendamentos.Agendamento.Criar | TIC55-AGENDA-VTA-main/prototipo-vta/backend/models/agendamento.py:14-50 | Fails exactly when the checks fail, with their error; otherwise a new appointment with the arguments and the initial control state. |
| Agendamentos.Agendamento.FromDict | TIC55-AGENDA-VTA-main/prototipo-vta/backend/models/agendamento.py:153-184 | Succeeds exactly when the dict reads back; then the appointment holds the arguments and the restored status, creation time and cancellation fields, with start, end and creation time equal to the dict's ISO values. |
| Agendamentos.ParaDict | TIC55-AGENDA-VTA-main/prototipo-vta/backend/models/agendamento.py:129-151 | Exactly the fourteen keys; start, end and creation time as ISO text, the cancellation time as ISO text or null. |
| Agendamentos.LerValor | TIC55-AGENDA-VTA-main/prototipo-vta/backend/models/agendamento.py:165-179 | `data[k]`: the stored value, of whatever type, exactly when the key is present. |
| Agendamentos.LerInstante | TIC55-AGENDA-VTA-main/prototipo-vta/backend/models/agendamento.py:170-180 | `datetime.fromisoformat(data[k])`: an instant exactly when the key holds ISO text; a missing key is a key error. |
| Agendamentos.LerDict | TIC55-AGENDA-VTA-main/prototipo-vta/backend/models/agendamento.py:153-184 | Succeeds exactly when the arguments read (`LerArgumentos`), pass the constructor's checks, and the control fields read (`LerControle`); a missing argument key or bad date is the argument reader's error and a refused argument the constructor's error; on success the start, end and creation times are exactly the dict's ISO values, the identifiers, type, status, notes, creator and canceller are kept as they are (of any type), and the cancellation time is the dict's ISO value exactly when that value is truthy. |
| Agendamentos.LerArgumentos | TIC55-AGENDA-VTA-main/prototipo-vta/backend/models/agendamento.py:164-175 | Succeeds exactly when the eight argument keys are present and `inicio`/`fim` are ISO timestamps; then the arguments are the dict's values, with `observacoes` and `criado_por` defaulting to null; a missing `id` is reported first, and every failure names a missing key or a present non-ISO date. |
| Agendamentos.LerControle | TIC55-AGENDA-VTA-main/prototipo-vta/backend/models/agendamento.py:178-182 | Succeeds exactly when `status` and an ISO `criado_em` are present and a truthy `cancelado_em` is ISO; then status, creation time and canceller are the dict's values and the cancellation time is set exactly when `cancelado_em` is truthy; a missing `status` is reported first. |
| Agendamentos.LerDictSucesso | TIC55-AGENDA-VTA-main/prototipo-vta/backend/models/agendamento.py:153-184 | `from_dict` succeeds exactly when the ten keys are present, the three dates are ISO, the start is before the end, every id is a non-blank string, and a truthy `cancelado_em` is ISO. |
| Agendamentos.DictRoundTrip | TIC55-AGENDA-VTA-main/prototipo-vta/backend/models/agendamento.py:129-184 | `from_dict(to_dict())` restores every field of a valid appointment, control fields included. |
| Agendamentos.ArgumentosDeParaDict | TIC55-AGENDA-VTA-main/prototipo-vta/backend/models/agendamento.py:164-175 | The constructor arguments survive `to_dict`. |
| Agendamentos.ControleDeParaDict | TIC55-AGENDA-VTA-main/prototipo-vta/backend/models/agendamento.py:178-182 | Status, creation time and cancellation fields survive `to_dict`; `cancelado_em` is restored only when present. |
| Dicionario.LerCampo | TIC55-AGENDA-VTA-main/prototipo-vta/backend/models/sala.py:31-35 | How `if not v or not v.strip()` sees a value: a non-blank string exactly when it passes, keeping that string; a falsy value or blank string is empty; a truthy non-string has no `strip` (`AttributeError`). |
| Dicionario.StrDe | TIC55-AGENDA-VTA-main/prototipo-vta/backend/models/notificacao.py:44-52 | `str(v)`: a string is itself, a non-negative integer its decimal text; only the value kinds whose text is not modelled give none. |
| Texto.StripIdempotent | TIC55-AGENDA-VTA-main/prototipo-vta/backend/models/sala.py:41-42 | `strip` is idempotent, which is why stored trimmed fields survive re-construction. |
| Texto.StripSlice | TIC55-AGENDA-VTA-main/prototipo-vta/backend/models/sala.py:41-42 | `strip` keeps one contiguous run of the input whose ends are not whitespace. |
| Texto.StripKeepsNonSpace | TIC55-AGENDA-VTA-main/prototipo-vta/backend/models/sala.py:41-42 | `strip` drops only whitespace. |
| Texto.BlankIffAllSpace | TIC55-AGENDA-VTA-main/prototipo-vta/backend/models/sala.py:31-35 | `not s or not s.strip()` holds exactly for strings made only of whitespace. |
| Texto.CollapseSpaces | TIC55-AGENDA-VTA-main/prototipo-vta/backend/models/usuario.py:75 | `' '.join(s.strip().split())`: the same words as the input, joined by single spaces with no whitespace at the ends; empty exactly for a blank input. |
| Texto.WordsOfStrip | TIC55-AGENDA-VTA-main/prototipo-vta/backend/models/usuario.py:75 | Trimming does not change the words of a text. |
| Texto.WordsOfJoinSpace | TIC55-AGENDA-VTA-main/prototipo-vta/backend/models/usuario.py:75 | Joining non-empty whitespace-free words with single spaces and splitting again gives the words back. |
| Texto.Digits | TIC55-AGENDA-VTA-main/prototipo-vta/backend/models/endereco.py:46 | Only digits, and the input itself when it holds nothing else. |
| Texto.DigitsOne | TIC55-AGENDA-VTA-main/prototipo-vta/backend/models/endereco.py:46 | A single character is kept exactly when it is a digit. |
| Texto.DigitsAppend | TIC55-AGENDA-VTA-main/prototipo-vta/backend/models/endereco.py:46 | The digit filter distributes over concatenation; with `DigitsOne` this fixes it as the in-order list of the input's digits. |
| Texto.Lower | TIC55-AGENDA-VTA-main/prototipo-vta/backend/models/usuario.py:57 | Same length, no upper-case ASCII letter left, only those letters changed. |
| Texto.Upper | TIC55-AGENDA-VTA-main/prototipo-vta/backend/models/endereco.py:38 | Same length, no lower-case ASCII letter left, only those letters changed. |
| Texto.NormalizarIdempotente | TIC55-AGENDA-VTA-main/prototipo-vta/backend/models/notificacao.py:55 | `s.strip().lower()` is a normal form: trimming or lower-casing it again changes nothing. |
| Texto.Split | TIC55-AGENDA-VTA-main/prototipo-vta/backend/models/usuario.py:156 | `split(sep, maxsplit)`: between 1 and `maxsplit + 1` parts that joined by `sep` give the input back, cut at the leftmost separators: no part but the last holds one, and the last neither when fewer than `maxsplit` cuts were made. |
| Texto.PrefixPy | TIC55-AGENDA-VTA-main/prototipo-vta/backend/services/notificacao_servico.py:164 | `s[:k]`: a prefix, of length `min(k, |s|)` for `k >= 0` and `|s| + k` (at least 0) for negative `k`. |

## Left out

- The repository branch of `NotificacaoServico` (`self.repositorio.*`) is not modelled; only the in-memory cache path is. The persistence layer is foreign code.
- `NotificacaoServico` reads attributes that `Notificacao` and `Usuario` do not define: `usuario.uuid`, the `usuarioId=`/`criadaEm=` keyword arguments, `n.usuarioId`, `n.criadaEm`, `n.id` and `n.marcarComoLida()` (services/notificacao_servico.py:65-71,115,121,188-189). As written, every operation that reaches them would raise `AttributeError` or `TypeError`. The model uses the intended `usuario_id`, `criada_em`, `notificacao_id` and `marcar_como_lida` instead.
- `excluirAntigas` is not modelled: it depends on wall-clock day arithmetic (`timedelta.days`).
- `Notificacao.get_idade_em_segundos` and `is_recente` are not modelled: they use floating-point seconds from the clock.
- Time zones are not modelled. The `tzinfo` fix-ups in `Notificacao.__init__` and `registrar_ultimo_login`, `datetime.fromisoformat` and `isoformat()` are abstracted: an instant is an integer, and its ISO text is the dict value `VIso(t)`, which reads back as the same instant.
- Identifiers are strings throughout. The `str()` coercion of `UUID` arguments is not modelled, and neither is the fact that `PetServico.criar`/`atualizar` compare `pet_id` without `str()` (so a `UUID` and its text differ there).
- PBKDF2, SHA-256, `os.urandom` and `hmac.compare_digest` are not modelled beyond their results. `compare_digest` becomes equality, so its constant-time property is not expressible.
- Case mapping and `isdigit` cover ASCII only. Python's Unicode case tables and Unicode digits are not modelled.
- `EMAIL_REGEX` is a hand-written character-class predicate with the regex's structure, not a regular-expression engine.
- `Usuario.from_dict`, the `__eq__`/`__hash__`/`__repr__` members of `Usuario`, `Notificacao` and `Sala`, and `Agendamento.__str__` are not modelled. The `Usuario` and `Sala` ones read a `uuid` attribute that is never set.
- `Agendamento.gerar_ticket_texto` is not modelled: it is text layout only.
- Credenciais.HashSenha: a count above C `INT_MAX` is an error result (`IteracoesExcessivas`), standing for the `OverflowError` that `hashlib.pbkdf2_hmac` raises.
- ServicoNotificacoes.OrdenarRecentes: the result is stated to be newest first and a permutation of the input, but the stability of `sorted` among equal creation times is not stated as a lemma.
- ServicoNotificacoes.NotificacaoServico.EnviarEmLote: states that each returned notification belongs to one of the given users, not which one; the order of the returned list is not tied to the order of the users.
- ServicoNotificacoes.NotificacaoServico.MarcarTodasComoLidas: computes the unread list with the same functions as `ListarNaoLidas` rather than calling that method.
- ServicoNotificacoes.NotificacaoServico.BuscarPorTipo: a non-string `tipo` or an unknown type name is stated to give the empty list. The source reaches the same result through `is_tipo` on each notification.
- Pets are values (a datatype), not shared objects. `PetServico` therefore does not model that the caller still holds a reference to the stored pet object.
- ServicoPets.PetServico.BuscarPorCliente: takes the client id as `Option<int>` (`None` or an integer). Comparisons between values of other types are not modelled.
- Sala `statusEm` receives reservation records with optional `inicio`/`fim` standing for `hasattr`. Dict rows, which `hasattr` would skip, are records with both fields absent.
- Salas.StatusEm: a reservation whose `inicio` or `fim` attribute exists but is `None` makes the comparison raise `TypeError`; the optional fields cannot express an attribute that is present and `None`, so such a reservation is treated as lacking the attribute and skipped.
- Codificacao.IntToDecimal: `str()` of an integer with more than 4300 digits raises `ValueError` in CPython; the model always gives the text, so an `Endereco` whose integer `numero` is that long is accepted. `NatToDecimal` has no such limit either; only `int()` (`ParseInt`) applies it.
- Codificacao.ParseInt: the digit limit is CPython's default of 4300; a limit changed by `sys.set_int_max_str_digits` is not modelled.
- Dicionario.LerCampo: a dict value that is ISO text (`VIso`) is treated as a non-string when it stands where a name, title or message is expected, so such a value is refused with `CampoNaoTexto` where Python would read it as text.
- Dicionario.StrDe: `str()` of ISO text and of a set of strings is not modelled; `Notificacao.from_dict` refuses such a `notificacao_id` or `usuario_id` with `CampoNaoTexto`, where Python would store its text.
- Dict readers: where the source raises `AttributeError` or `TypeError` on a value of the wrong type (a non-string name, title, message or identifier, a non-ISO date field), the model returns a dedicated error value (`CampoNaoTexto`, `IdSemStrip`, `IsoInvalido`) at the point where the source raises; the exception class itself is not modelled.
- ServicoNotificacoes.DoUsuario: states which cache entries are kept, not that they form a subsequence of the cache in its order.
- ServicoNotificacoes.NaoLidas: states which cache entries are kept, not that they form a subsequence of the cache in its order.
- ServicoNotificacoes.DoTipo: states which notifications are kept, with the input's multiplicities (`DoTipoMultiplicidade`), and that newest-first order is preserved; that the result is a subsequence of the input in its order is not stated, which matters only among notifications created at the same instant.
- ServicoNotificacoes.Urgentes: states which notifications are kept, with the input's multiplicities (`UrgentesMultiplicidade`), and that newest-first order is preserved; that the result is a subsequence of the input in its order is not stated, which matters only among notifications created at the same instant.

## Findings

| source | as written | input that shows it | evidently intended | confidence | as-written member | corrected member |
|---|---|---|---|---|---|---|
| TIC55-AGENDA-VTA-main/prototipo-vta/backend/models/usuario.py:153-179 | `validar_senha` catches only `ValueError`, `TypeError` and `AttributeError`. `hashlib.pbkdf2_hmac` raises `OverflowError` for an iteration count above C `INT_MAX`, so that error escapes. | `validar_senha("2147483648$00$00", "x")` | return `False`, as the method's contract promises for every malformed hash | not executed | Credenciais.OverflowExemplo | Credenciais.ValidarSenhaConcorda |
| TIC55-AGENDA-VTA-main/prototipo-vta/backend/models/pet.py:55-60 | `calcular_idade` subtracts one whenever today's (month, day) is not after the birthday's, including in the birth year itself. | a pet born on `hoje`: `CalcularIdade(hoje, hoje) == -1` (tests/test_pet.py:264-273 expects 0) | 0 completed years, never negative | not executed | Pets.CalcularIdadeNascidoHoje | Pets.Idade |
