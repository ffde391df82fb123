/** `PetServico`: the in-memory list of pets, keyed by `pet_id`, with
    creation, update, lookup and removal. */
module ServicoPets {
  import opened Wrappers
  import opened Pets

  /** The `ValueError`s the service raises. */
  datatype ErroPet = PetJaExiste(petId: string) | PetNaoEncontrado(petId: string)

  /** The `pet_id`s of `s` are pairwise distinct. */
  predicate IdsDistintos(s: seq<Pet>) {
    forall i, j :: 0 <= i < j < |s| ==> s[i].petId != s[j].petId
  }

  /** `any(p.pet_id == id for p in s)`. */
  predicate TemId(s: seq<Pet>, id: string) {
    exists k :: 0 <= k < |s| && s[k].petId == id
  }

  /** The position of the first pet of `s` with the given id, if any. */
  function Primeiro(s: seq<Pet>, id: string): (r: Option<nat>)
    ensures r.None? <==> !TemId(s, id)
    ensures r.Some? ==> r.value < |s| && s[r.value].petId == id
    ensures r.Some? ==> forall k :: 0 <= k < r.value ==> s[k].petId != id
  {
    if s == [] then None
    else if s[0].petId == id then Some(0)
    else
      match Primeiro(s[1..], id)
      case None =>
        assert forall k :: 1 <= k < |s| ==> s[k] == s[1..][k - 1];
        None
      case Some(i) =>
        assert s[i + 1] == s[1..][i];
        Some(i + 1)
  }

  /** `[pet for pet in s if pet.cliente_id == c]`. */
  function DoCliente(s: seq<Pet>, c: Option<int>): (r: seq<Pet>)
    ensures |r| <= |s|
    ensures forall p :: p in r <==> p in s && p.clienteId == c
  {
    if s == [] then []
    else
      assert forall p :: p in s <==> p == s[0] || p in s[1..];
      (if s[0].clienteId == c then [s[0]] else []) + DoCliente(s[1..], c)
  }

  /** `s.pop(i)`: the list without its `i`-th element. */
  function Remover(s: seq<Pet>, i: nat): (r: seq<Pet>)
    requires i < |s|
    ensures |r| == |s| - 1
    ensures forall k :: 0 <= k < i ==> r[k] == s[k]
    ensures forall k :: i <= k < |r| ==> r[k] == s[k + 1]
  {
    s[..i] + s[i + 1..]
  }

  /** Appending a pet whose id is new keeps the ids distinct, and the pet is
      then the one found under its id. */
  lemma AcrescentarDistinto(s: seq<Pet>, p: Pet)
    requires IdsDistintos(s) && !TemId(s, p.petId)
    ensures IdsDistintos(s + [p])
    ensures Primeiro(s + [p], p.petId) == Some(|s|)
  {
    var t := s + [p];
    forall i, j | 0 <= i < j < |t| ensures t[i].petId != t[j].petId {
      if j == |s| {
        assert t[i] == s[i];
      } else {
        assert t[i] == s[i] && t[j] == s[j];
      }
    }
    forall k | 0 <= k < |s| ensures t[k].petId != p.petId {
      assert t[k] == s[k];
    }
    assert t[|s|] == p;
  }

  /** Replacing a pet by one with the same id keeps the ids distinct, and
      the new pet is then the one found under that id. */
  lemma SubstituirDistinto(s: seq<Pet>, i: nat, p: Pet)
    requires IdsDistintos(s) && i < |s| && s[i].petId == p.petId
    ensures IdsDistintos(s[i := p])
    ensures Primeiro(s[i := p], p.petId) == Some(i)
  {
    var t := s[i := p];
    forall k | 0 <= k < i ensures t[k].petId != p.petId {
      assert t[k] == s[k];
    }
    assert t[i] == p;
  }

  /** Removing the pet with a given id from a list of distinct ids leaves
      none with that id, and the rest of the ids distinct. */
  lemma RemoverDistinto(s: seq<Pet>, i: nat)
    requires IdsDistintos(s) && i < |s|
    ensures IdsDistintos(Remover(s, i))
    ensures !TemId(Remover(s, i), s[i].petId)
  {
    var t := Remover(s, i);
    forall a, b | 0 <= a < b < |t| ensures t[a].petId != t[b].petId {
      var a' := if a < i then a else a + 1;
      var b' := if b < i then b else b + 1;
      assert t[a] == s[a'] && t[b] == s[b'];
    }
    forall k | 0 <= k < |t| ensures t[k].petId != s[i].petId {
      var k' := if k < i then k else k + 1;
      assert t[k] == s[k'];
    }
  }

  /** `buscar_por_cliente` after appending one pet: the new pet is listed
      last exactly when it belongs to the client. */
  lemma {:induction false} DoClienteAcrescentar(s: seq<Pet>, p: Pet, c: Option<int>)
    ensures DoCliente(s + [p], c) == DoCliente(s, c) + (if p.clienteId == c then [p] else [])
  {
    if s == [] {
      assert [] + [p] == [p];
    } else {
      assert (s + [p])[1..] == s[1..] + [p];
      DoClienteAcrescentar(s[1..], p, c);
    }
  }

  class PetServico {
    /** `self.pets`, in insertion order. */
    var pets: seq<Pet>

    /** `__init__`: no pets. */
    constructor()
      ensures pets == []
    {
      pets := [];
    }

    /** `criar`: refuses a pet whose id is already present, otherwise
        appends it; the ids stay distinct. */
    method Criar(pet: Pet) returns (r: Result<Pet, ErroPet>)
      modifies this
      ensures TemId(old(pets), pet.petId) ==> r == Err(PetJaExiste(pet.petId)) && pets == old(pets)
      ensures !TemId(old(pets), pet.petId) ==> r == Ok(pet) && pets == old(pets) + [pet]
      ensures old(IdsDistintos(pets)) ==> IdsDistintos(pets)
    {
      if TemId(pets, pet.petId) {
        return Err(PetJaExiste(pet.petId));
      }
      if IdsDistintos(pets) {
        AcrescentarDistinto(pets, pet);
      }
      pets := pets + [pet];
      return Ok(pet);
    }

    /** `atualizar`: replaces the first pet with the same id, in place;
        refuses an id that is not present. */
    method Atualizar(pet: Pet) returns (r: Result<Pet, ErroPet>)
      modifies this
      ensures Primeiro(old(pets), pet.petId).None? ==> r == Err(PetNaoEncontrado(pet.petId)) && pets == old(pets)
      ensures Primeiro(old(pets), pet.petId).Some? ==>
                r == Ok(pet) && pets == old(pets)[Primeiro(old(pets), pet.petId).value := pet]
      ensures old(IdsDistintos(pets)) ==> IdsDistintos(pets)
    {
      for i := 0 to |pets|
        invariant forall k :: 0 <= k < i ==> pets[k].petId != pet.petId
      {
        if pets[i].petId == pet.petId {
          if IdsDistintos(pets) {
            SubstituirDistinto(pets, i, pet);
          }
          pets := pets[i := pet];
          return Ok(pet);
        }
      }
      return Err(PetNaoEncontrado(pet.petId));
    }

    /** `buscar_por_cliente`: the client's pets, in list order. */
    method BuscarPorCliente(c: Option<int>) returns (r: seq<Pet>)
      ensures r == DoCliente(pets, c)
    {
      r := DoCliente(pets, c);
    }

    /** `buscar_por_uuid`: the first pet with the id, or None. */
    method BuscarPorUuid(id: string) returns (r: Option<Pet>)
      ensures r.None? <==> !TemId(pets, id)
      ensures r.Some? ==> r == Some(pets[Primeiro(pets, id).value])
    {
      for i := 0 to |pets|
        invariant forall k :: 0 <= k < i ==> pets[k].petId != id
      {
        if pets[i].petId == id {
          return Some(pets[i]);
        }
      }
      return None;
    }

    /** `listar_todos`: a copy of the list. */
    method ListarTodos() returns (r: seq<Pet>)
      ensures r == pets
    {
      r := pets;
    }

    /** `deletar`: removes the first pet with the id and says whether there
        was one; with distinct ids, none is left afterwards. */
    method Deletar(id: string) returns (b: bool)
      modifies this
      ensures b <==> TemId(old(pets), id)
      ensures !b ==> pets == old(pets)
      ensures b ==> pets == Remover(old(pets), Primeiro(old(pets), id).value)
      ensures old(IdsDistintos(pets)) ==> IdsDistintos(pets) && !TemId(pets, id)
    {
      for i := 0 to |pets|
        invariant forall k :: 0 <= k < i ==> pets[k].petId != id
      {
        if pets[i].petId == id {
          if IdsDistintos(pets) {
            RemoverDistinto(pets, i);
          }
          pets := Remover(pets, i);
          return true;
        }
      }
      return false;
    }
  }
}
