/**
 * The `inventario` table behind `InventarioRepository`: at most one record per
 * product id (the unique `producto_id` column), ids drawn from the
 * `inventario_seq` sequence, and Bean Validation run on every write, so that
 * a record breaking a field constraint is never stored.
 */
module InventarioStore {
  import opened Wrappers
  import opened InventarioEntity

  /** The table's content keyed by product id, and the next value of the id sequence. */
  datatype Store = Store(registros: map<int, Inventario>, siguienteId: int)

  /** The empty table; the sequence starts at 1. */
  const Empty := Store(map[], 1)

  /** The record stored under product id `p` agrees with its key, is valid and has an id already drawn. */
  predicate Stored(s: Store, p: int)
    requires p in s.registros
  {
    var e := s.registros[p];
    && e.productoId == Some(p)
    && IsValid(e)
    && e.id.Some? && 1 <= e.id.value < s.siguienteId
  }

  /** What the table's constraints guarantee of its content at every commit. */
  predicate Invariant(s: Store) {
    && s.siguienteId >= 1
    && (forall p | p in s.registros :: Stored(s, p))
    && (forall p, q | p in s.registros && q in s.registros && s.registros[p].id == s.registros[q].id :: p == q)
  }

  lemma EmptyInvariant()
    ensures Invariant(Empty)
  {
  }

  /** `findByProductoId`: a null id matches no record. */
  function Lookup(s: Store, productoId: Option<int>): (r: Option<Inventario>)
    ensures r.Some? <==> productoId.Some? && productoId.value in s.registros
    ensures r.Some? ==> r.value == s.registros[productoId.value]
  {
    if productoId.Some? && productoId.value in s.registros then Some(s.registros[productoId.value]) else None
  }

  /** Why the table refuses a save. */
  datatype Rechazo =
    | Invalida(violaciones: seq<string>)   // Bean Validation, run when the write is flushed
    | ProductoIdRepetido(productoId: int)  // the unique `producto_id` column

  /** The product id whose record has this record id, if any; ids are distinct, so there is at most one. */
  function ClaveDeId(s: Store, id: int): (q: Option<int>)
    requires Invariant(s)
    ensures q.Some? <==> exists p :: p in s.registros && s.registros[p].id == Some(id)
    ensures q.Some? ==> q.value in s.registros && s.registros[q.value].id == Some(id)
  {
    if exists p :: p in s.registros && s.registros[p].id == Some(id) then
      var p :| p in s.registros && s.registros[p].id == Some(id);
      Some(p)
    else None
  }

  /** A stored record is found again by its own id. */
  lemma ClaveDeStored(s: Store, p: int)
    requires Invariant(s) && p in s.registros
    ensures s.registros[p].id.Some? && ClaveDeId(s, s.registros[p].id.value) == Some(p)
  {
    assert Stored(s, p);
  }

  /** `save` merges an entity whose id names a stored record; any other entity is persisted as new. */
  predicate Fusiona(s: Store, e: Inventario)
    requires Invariant(s)
  {
    e.id.Some? && ClaveDeId(s, e.id.value).Some?
  }

  /**
   * `save`. An entity whose id names a stored record is merged into it: the
   * record takes the entity's product id and quantity, moving to that product
   * if it differs. Any other entity, including one carrying an id that names
   * no record, is persisted as new: the next value of `inventario_seq` is
   * drawn for its id before the insert is flushed, and is not given back if
   * the insert is then refused. Bean Validation refuses an invalid entity and
   * the unique `producto_id` column refuses a second record for a product;
   * a refusal writes no record.
   */
  function Persist(s: Store, e: Inventario): (o: (Result<Inventario, Rechazo>, Store))
    requires Invariant(s)
    ensures Invariant(o.1)
    ensures !IsValid(e) ==> o.0 == Failure(Invalida(Violations(e)))
    ensures o.0.Failure? ==> o.1.registros == s.registros
    ensures o.1.siguienteId == if Fusiona(s, e) then s.siguienteId else s.siguienteId + 1
    ensures IsValid(e) && !Fusiona(s, e) ==>
      var p := e.productoId.value;
      && (p in s.registros ==> o.0 == Failure(ProductoIdRepetido(p)))
      && (p !in s.registros ==> o.0 == Success(e.(id := Some(s.siguienteId))) && o.1.registros == s.registros[p := o.0.value])
    ensures IsValid(e) && Fusiona(s, e) ==>
      var p := e.productoId.value;
      var q := ClaveDeId(s, e.id.value).value;
      && (p != q && p in s.registros ==> o.0 == Failure(ProductoIdRepetido(p)))
      && (p == q || p !in s.registros ==> o.0 == Success(e) && o.1.registros == (s.registros - {q})[p := e])
    ensures IsValid(e) && Fusiona(s, e) && ClaveDeId(s, e.id.value) == e.productoId ==>
      o == (Success(e), Store(s.registros[e.productoId.value := e], s.siguienteId))
  {
    if Fusiona(s, e) then
      var q := ClaveDeId(s, e.id.value).value;
      assert Stored(s, q);
      if !IsValid(e) then (Failure(Invalida(Violations(e))), s)
      else
        var p := e.productoId.value;
        if p != q && p in s.registros then (Failure(ProductoIdRepetido(p)), s)
        else
          var s' := Store((s.registros - {q})[p := e], s.siguienteId);
          assert p == q ==> s'.registros == s.registros[p := e];
          assert Invariant(s') by {
            forall k | k in s'.registros && k != p ensures Stored(s', k) {
              assert Stored(s, k);
            }
          }
          (Success(e), s')
    else
      var s1 := s.(siguienteId := s.siguienteId + 1);
      assert Invariant(s1) by {
        forall k | k in s1.registros ensures Stored(s1, k) {
          assert Stored(s, k);
        }
      }
      if !IsValid(e) then (Failure(Invalida(Violations(e))), s1)
      else
        var p := e.productoId.value;
        if p in s.registros then (Failure(ProductoIdRepetido(p)), s1)
        else
          var saved := e.(id := Some(s.siguienteId));
          var s' := Store(s.registros[p := saved], s.siguienteId + 1);
          assert forall k | k in s.registros :: s.registros[k].id != saved.id by {
            forall k | k in s.registros ensures s.registros[k].id != saved.id {
              assert Stored(s, k);
            }
          }
          assert Invariant(s') by {
            forall k | k in s'.registros ensures Stored(s', k) {
              if k != p { assert Stored(s, k); }
            }
          }
          (Success(saved), s')
  }

  /** `delete`: the record of that product id is gone; the sequence does not move back. */
  function Remove(s: Store, p: int): (s': Store)
    ensures s'.registros.Keys == s.registros.Keys - {p}
    ensures forall q | q in s'.registros :: s'.registros[q] == s.registros[q]
    ensures s'.siguienteId == s.siguienteId
    ensures Invariant(s) ==> Invariant(s')
  {
    Store(s.registros - {p}, s.siguienteId)
  }

  /** Saving the record a save returned writes nothing new: the stored record is its own fixed point. */
  lemma PersistStoredIsNoOp(s: Store, p: int)
    requires Invariant(s) && p in s.registros
    ensures Persist(s, s.registros[p]) == (Success(s.registros[p]), s)
  {
    ClaveDeStored(s, p);
    var e := s.registros[p];
    assert s.registros[p := e] == s.registros;
  }

  lemma NonEmptyHasMember(s: set<int>)
    requires |s| > 0
    ensures exists x :: x in s
  {
    if forall x :: x !in s {
      assert false;
    }
  }

  /** The repository object: one table, written in place. */
  class InventarioRepository {
    var registros: map<int, Inventario>
    var siguienteId: int

    function State(): Store
      reads this
    {
      Store(registros, siguienteId)
    }

    predicate Valid()
      reads this
    {
      Invariant(State())
    }

    constructor ()
      ensures State() == Empty && Valid()
    {
      registros := map[];
      siguienteId := 1;
    }

    method FindByProductoId(productoId: Option<int>) returns (r: Option<Inventario>)
      ensures r == Lookup(State(), productoId)
    {
      r := None;
      if productoId.Some? && productoId.value in registros {
        r := Some(registros[productoId.value]);
      }
    }

    /** `findAll`: every record exactly once, in no promised order. */
    method FindAll() returns (r: seq<Inventario>)
      ensures |r| == |registros|
      ensures forall p | p in registros :: registros[p] in r
      ensures forall i | 0 <= i < |r| :: r[i] in registros.Values
    {
      r := [];
      var pendientes := registros.Keys;
      while |pendientes| > 0
        invariant pendientes <= registros.Keys
        invariant |r| + |pendientes| == |registros.Keys|
        invariant forall p | p in registros && p !in pendientes :: registros[p] in r
        invariant forall i | 0 <= i < |r| :: r[i] in registros.Values
        decreases pendientes
      {
        NonEmptyHasMember(pendientes);
        var p :| p in pendientes;
        r := r + [registros[p]];
        pendientes := pendientes - {p};
      }
    }

    method Save(e: Inventario) returns (r: Result<Inventario, Rechazo>)
      requires Valid()
      modifies this
      ensures Valid()
      ensures (r, State()) == Persist(old(State()), e)
    {
      var q: Option<int> := None;
      if e.id.Some? {
        q := ClaveDeId(State(), e.id.value);
      }
      if q.None? {
        // persist: the id is drawn from the sequence before the insert is flushed
        var id := siguienteId;
        siguienteId := siguienteId + 1;
        var violaciones := Violations(e);
        if violaciones != [] {
          return Failure(Invalida(violaciones));
        }
        var p := e.productoId.value;
        if p in registros {
          return Failure(ProductoIdRepetido(p));
        }
        var saved := e.(id := Some(id));
        registros := registros[p := saved];
        r := Success(saved);
      } else {
        // merge into the stored record with that id
        var violaciones := Violations(e);
        if violaciones != [] {
          return Failure(Invalida(violaciones));
        }
        var p := e.productoId.value;
        if p != q.value && p in registros {
          return Failure(ProductoIdRepetido(p));
        }
        registros := (registros - {q.value})[p := e];
        r := Success(e);
      }
    }

    method Delete(p: int)
      modifies this
      ensures State() == Remove(old(State()), p)
    {
      registros := registros - {p};
    }
  }
}
