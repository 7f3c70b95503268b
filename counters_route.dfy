/**
 * `/api/counters`: the three chaos counters live in one row with id "main",
 * created on first use. GET reads it, PATCH moves one counter by one, PUT
 * sets any of them. A body that is not JSON, and any failure of the
 * database (the `fault` parameter), end in a 500 response with the table as
 * it was.
 */
module CountersRoute {
  import opened Wrappers
  import opened Http
  import opened Database

  const MAIN := "main"
  const GET_ERROR := "Erro ao buscar contadores"
  const PATCH_ERROR := "Erro ao atualizar contador"
  const PUT_ERROR := "Erro ao definir contadores"
  const TYPE_ERROR := "Tipo de contador inválido"

  /** The row `create({ data: { id: 'main' } })` makes: every counter at its column default, 0. */
  function FreshCounter(): CounterRow {
    CounterRow(MAIN, 0, 0, 0)
  }

  /** The counter table once the "main" row exists. */
  function EnsureMain(t: map<string, CounterRow>): (r: map<string, CounterRow>)
    ensures MAIN in r
    ensures forall k :: k in t ==> k in r && r[k] == t[k]
    ensures forall k :: k in r && k !in t ==> k == MAIN && r[k] == FreshCounter()
  {
    if MAIN in t then t else t[MAIN := FreshCounter()]
  }

  /** The row is created at most once: ensuring it again changes nothing. */
  lemma EnsureMainIdempotent(t: map<string, CounterRow>)
    ensures EnsureMain(EnsureMain(t)) == EnsureMain(t)
  {
  }

  predicate IsCounterType(t: string) {
    t == "brigas" || t == "acidentes" || t == "pts"
  }

  /** The counter a type names. */
  function Field(row: CounterRow, t: string): int
    requires IsCounterType(t)
  {
    if t == "brigas" then row.brigas else if t == "acidentes" then row.acidentes else row.pts
  }

  /** `action === 'decrement' ? -1 : 1`, where a missing action reads as 'increment'. */
  function Increment(action: Option<string>): (d: int)
    ensures d == -1 <==> action == Some("decrement")
    ensures d == 1 || d == -1
  {
    if action.GetOr("increment") == "decrement" then -1 else 1
  }

  /** `update({ data: { [t]: { increment: d } } })` on one row; no lower bound. */
  function Bump(row: CounterRow, t: string, d: int): (r: CounterRow)
    requires IsCounterType(t)
    ensures r.id == row.id
    ensures Field(r, t) == Field(row, t) + d
    ensures forall u :: IsCounterType(u) && u != t ==> Field(r, u) == Field(row, u)
  {
    if t == "brigas" then row.(brigas := row.brigas + d)
    else if t == "acidentes" then row.(acidentes := row.acidentes + d)
    else row.(pts := row.pts + d)
  }

  /** A decrement undoes an increment of the same counter. */
  lemma BumpUndo(row: CounterRow, t: string)
    requires IsCounterType(t)
    ensures Bump(Bump(row, t, 1), t, -1) == row
  {
    var up := Bump(row, t, 1);
    var down := Bump(up, t, -1);
    assert Field(down, t) == Field(row, t);
    assert forall u :: IsCounterType(u) ==> Field(down, u) == Field(row, u);
    assert Field(down, "brigas") == row.brigas;
    assert Field(down, "acidentes") == row.acidentes;
    assert Field(down, "pts") == row.pts;
  }

  /** A counter at 0 goes to -1 on a decrement. */
  lemma DecrementBelowZero(row: CounterRow, t: string)
    requires IsCounterType(t) && Field(row, t) == 0
    ensures Field(Bump(row, t, Increment(Some("decrement"))), t) == -1
  {
  }

  /** The JSON a PATCH carries: `{ type, action }`, either of which may be absent. */
  datatype PatchBody = PatchBody(kind: Option<string>, action: Option<string>)

  /** The JSON a PUT carries: any of the three counters; an absent one is `undefined`. */
  datatype PutBody = PutBody(brigas: Option<int>, acidentes: Option<int>, pts: Option<int>)

  /** `v || 0` for a number that may be undefined. */
  function OrZero(v: Option<int>): int {
    if v.Some? && v.value != 0 then v.value else 0
  }

  /** The row `upsert` leaves: the existing row with the given counters set, or a new row. */
  function Upserted(existing: Option<CounterRow>, body: PutBody): (r: CounterRow)
    ensures existing.Some? ==>
      && r.id == existing.value.id
      && r.brigas == (if body.brigas.Some? then body.brigas.value else existing.value.brigas)
      && r.acidentes == (if body.acidentes.Some? then body.acidentes.value else existing.value.acidentes)
      && r.pts == (if body.pts.Some? then body.pts.value else existing.value.pts)
    ensures existing.None? ==> r.id == MAIN
  {
    match existing
    case Some(row) =>
      row.(brigas := body.brigas.GetOr(row.brigas),
           acidentes := body.acidentes.GetOr(row.acidentes),
           pts := body.pts.GetOr(row.pts))
    case None => CounterRow(MAIN, OrZero(body.brigas), OrZero(body.acidentes), OrZero(body.pts))
  }

  /**
   * Creating through PUT gives the row that updating a fresh row would: a
   * given counter takes its value (`v || 0` is `v` for every number), an
   * absent one is 0.
   */
  lemma UpsertCreateIsUpdateOfFresh(body: PutBody)
    ensures Upserted(None, body) == Upserted(Some(FreshCounter()), body)
  {
    assert OrZero(body.brigas) == body.brigas.GetOr(0);
    assert OrZero(body.acidentes) == body.acidentes.GetOr(0);
    assert OrZero(body.pts) == body.pts.GetOr(0);
  }

  /** PUT with an empty body leaves an existing row as it is. */
  lemma UpsertEmptyKeeps(row: CounterRow)
    ensures Upserted(Some(row), PutBody(None, None, None)) == row
  {
  }

  /** GET: the "main" row, created first if it is missing. */
  method HandleGet(db: Db, fault: bool) returns (resp: Response<CounterRow>)
    modifies db`counters
    ensures fault ==> resp == ServerError(GET_ERROR) && db.counters == old(db.counters)
    ensures !fault ==> db.counters == EnsureMain(old(db.counters)) && resp == Ok200(db.counters[MAIN])
  {
    if fault {
      return ServerError(GET_ERROR);
    }
    if MAIN !in db.counters {
      db.counters := db.counters[MAIN := FreshCounter()];
    }
    resp := Ok200(db.counters[MAIN]);
  }

  /** PATCH: validate the type, make sure the row exists, then move that counter. */
  method HandlePatch(db: Db, body: Option<PatchBody>, fault: bool) returns (resp: Response<CounterRow>)
    modifies db`counters
    ensures body.None? ==> resp == ServerError(PATCH_ERROR) && db.counters == old(db.counters)
    ensures body.Some? && !(body.value.kind.Some? && IsCounterType(body.value.kind.value)) ==>
      resp == BadRequest(TYPE_ERROR) && db.counters == old(db.counters)
    ensures body.Some? && body.value.kind.Some? && IsCounterType(body.value.kind.value) ==>
      if fault then resp == ServerError(PATCH_ERROR) && db.counters == old(db.counters)
      else
        var t := EnsureMain(old(db.counters));
        var row := Bump(t[MAIN], body.value.kind.value, Increment(body.value.action));
        db.counters == t[MAIN := row] && resp == Ok200(row)
  {
    if body.None? {
      return ServerError(PATCH_ERROR);
    }
    var kind := body.value.kind;
    if !(kind.Some? && IsCounterType(kind.value)) {
      return BadRequest(TYPE_ERROR);
    }
    if fault {
      return ServerError(PATCH_ERROR);
    }
    if MAIN !in db.counters {
      db.counters := db.counters[MAIN := FreshCounter()];
    }
    var increment := Increment(body.value.action);
    var row := Bump(db.counters[MAIN], kind.value, increment);
    db.counters := db.counters[MAIN := row];
    resp := Ok200(row);
  }

  /** PUT: upsert the "main" row from the counters the body gives. */
  method HandlePut(db: Db, body: Option<PutBody>, fault: bool) returns (resp: Response<CounterRow>)
    modifies db`counters
    ensures body.None? || fault ==> resp == ServerError(PUT_ERROR) && db.counters == old(db.counters)
    ensures body.Some? && !fault ==>
      var row := Upserted(if MAIN in old(db.counters) then Some(old(db.counters)[MAIN]) else None, body.value);
      db.counters == old(db.counters)[MAIN := row] && resp == Ok200(row)
  {
    if body.None? || fault {
      return ServerError(PUT_ERROR);
    }
    var existing := if MAIN in db.counters then Some(db.counters[MAIN]) else None;
    var row := Upserted(existing, body.value);
    db.counters := db.counters[MAIN := row];
    resp := Ok200(row);
  }
}
