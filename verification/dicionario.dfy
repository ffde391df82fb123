/** The values the models' `to_dict`/`from_dict` exchange: a Python `dict`
    from field names to JSON-like values. */
module Dicionario {
  import opened Wrappers
  import opened Texto
  import opened Codificacao

  /** One dict value. `VIso(t)` is the ISO-8601 text `isoformat()` writes for
      the instant `t`; `VStrSet` is a `frozenset` of strings. */
  datatype Val =
    | VNull
    | VBool(b: bool)
    | VInt(i: int)
    | VStr(s: string)
    | VIso(t: int)
    | VStrSet(items: set<string>)

  type Dict = map<string, Val>

  /** `d.get(k, default)`. */
  function Get(d: Dict, k: string, default: Val): Val {
    if k in d then d[k] else default
  }

  /** Python truthiness of a value (`bool(v)`). */
  predicate Truthy(v: Val) {
    match v
    case VNull => false
    case VBool(b) => b
    case VInt(i) => i != 0
    case VStr(s) => s != []
    case VIso(_) => true
    case VStrSet(items) => items != {}
  }

  /** How a constructor's `if not v or not v.strip(): raise ValueError(…)`
      sees a field value: a falsy value is empty, any other non-string has no
      `strip` and raises `AttributeError`, and a string is empty when blank. */
  datatype Campo = CampoVazio | SemStrip | Preenchido(texto: string)

  function LerCampo(v: Val): (c: Campo)
    ensures c.Preenchido? <==> v.VStr? && !Blank(v.s)
    ensures c.Preenchido? ==> c.texto == v.s
    ensures !Truthy(v) || (v.VStr? && Blank(v.s)) ==> c == CampoVazio
    ensures Truthy(v) && !v.VStr? ==> c == SemStrip
  {
    if !Truthy(v) then CampoVazio
    else if !v.VStr? then SemStrip
    else if Blank(v.s) then CampoVazio
    else Preenchido(v.s)
  }

  /** `str(v)` for the values whose text the model knows: `None`, the two
      booleans, integers and strings. The text of a timestamp or a set is not
      modelled (None). */
  function StrDe(v: Val): (r: Option<string>)
    ensures v.VStr? ==> r == Some(v.s)
    ensures v.VInt? && v.i >= 0 ==> r == Some(NatToDecimal(v.i))
    ensures r.None? <==> v.VIso? || v.VStrSet?
  {
    match v
    case VNull => Some("None")
    case VBool(b) => Some(if b then "True" else "False")
    case VInt(i) => Some(IntToDecimal(i))
    case VStr(s) => Some(s)
    case _ => None
  }
}
