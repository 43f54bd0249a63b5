/**
 * The backend routes of backend/server.py that hold logic: the partial
 * update of a tower with its dynamically built SET clause, the statistics
 * tally, and the try/except structure that decides each route's status.
 *
 * `execute_query` is not modelled; each call's result is a parameter:
 * a fetched row, no row, a list of rows, success, an `{"error": ...}`
 * dictionary, or the plain `Exception` that `get_db` raises when no
 * connection can be opened (backend/database.py:31-33), which
 * `execute_query`'s `except pyodbc.Error` does not catch.
 */
module Server {
  import opened Wrappers
  import opened Text
  import opened Seqs
  import opened Towers

  // ------------------------------------------------------ results and status

  /** What `execute_query(..., fetch_one=True)` returns. */
  datatype FetchOne<R> = RowFound(row: R) | NoRow | FetchError(msg: string) | FetchRaised

  /** What `execute_query(..., fetch_all=True)` returns. */
  datatype FetchAll<R> = Rows(rows: seq<R>) | RowsError(msg: string) | RowsRaised

  /** What `execute_query` returns for a statement: `{"success": True}` or `{"error": ...}`. */
  datatype Exec = ExecOk | ExecError(msg: string) | ExecRaised

  /** A route's response: a body with status 200, or an `HTTPException`. */
  datatype Outcome<T> = Ok(body: T) | Failure(status: nat, detail: string)

  const InternalErrorDetail := "Error interno del servidor"

  /** The message of the exception `get_db` raises; the route body stops there. */
  const NoConnectionDetail := "No se pudo conectar a la base de datos"

  /** `if not x:` on a fetched row: a row and an error dictionary are truthy, `None` is not. */
  predicate Truthy<R>(r: FetchOne<R>) {
    r.RowFound? || r.FetchError?
  }

  /**
   * The `except Exception` around each route body: the `HTTPException`s the
   * body raises are exceptions too, so whatever status they carry, the
   * route answers 500 with the generic detail. A `Failure` in a body stands
   * for any exception raised there, an `HTTPException` or another one.
   */
  function Caught<T>(raised: Outcome<T>): (r: Outcome<T>)
    ensures raised.Ok? ==> r == raised
    ensures raised.Failure? ==> r == Failure(500, InternalErrorDetail)
  {
    if raised.Ok? then raised else Failure(500, InternalErrorDetail)
  }

  // ---------------------------------------------------------- simple routes

  /** The body of `get_torre`'s `try`: the fetched row is returned as it is, even an error dictionary. */
  datatype TorreBody = TorreRow(torre: Tower) | ErrorDict(error: string)

  function GetTorreBody(fetched: FetchOne<Tower>): (r: Outcome<TorreBody>)
    ensures fetched.NoRow? ==> r == Failure(404, "Torre no encontrada")
    ensures r.Ok? <==> Truthy(fetched)
  {
    match fetched
    case NoRow => Failure(404, "Torre no encontrada")
    case RowFound(t) => Ok(TorreRow(t))
    case FetchError(msg) => Ok(ErrorDict(msg))
    case FetchRaised => Failure(500, NoConnectionDetail)
  }

  /**
   * `get_torre`: a missing tower answers 500, not 404, and so does a lost
   * connection; a query error is answered with status 200 and the error
   * dictionary as the body.
   */
  function GetTorre(fetched: FetchOne<Tower>): (r: Outcome<TorreBody>)
    ensures r.Failure? <==> fetched.NoRow? || fetched.FetchRaised?
    ensures r.Failure? ==> r.status == 500 && r.detail == InternalErrorDetail
    ensures fetched.RowFound? ==> r == Ok(TorreRow(fetched.row))
    ensures fetched.FetchError? ==> r == Ok(ErrorDict(fetched.msg))
  {
    Caught(GetTorreBody(fetched))
  }

  /** The body of `create_torre`'s `try`: a failed insert raises 500 with the database message. */
  function CreateTorreBody(exec: Exec): (r: Outcome<string>)
    ensures r.Ok? <==> exec.ExecOk?
    ensures exec.ExecError? ==> r == Failure(500, exec.msg)
  {
    match exec
    case ExecOk => Ok("Torre creada exitosamente")
    case ExecError(msg) => Failure(500, msg)
    case ExecRaised => Failure(500, NoConnectionDetail)
  }

  /** `create_torre`: success exactly when the insert succeeds; the database message never reaches the client. */
  function CreateTorre(exec: Exec): (r: Outcome<string>)
    ensures r.Ok? <==> exec.ExecOk?
    ensures r.Failure? ==> r.status == 500 && r.detail == InternalErrorDetail
  {
    Caught(CreateTorreBody(exec))
  }

  /** The body of `delete_torre`'s `try`: the 404 for a missing tower is raised before the delete. */
  function DeleteTorreBody(check: FetchOne<int>, exec: Exec): (r: Outcome<string>)
    ensures check.NoRow? ==> r == Failure(404, "Torre no encontrada")
    ensures r.Ok? <==> Truthy(check) && exec.ExecOk?
    ensures Truthy(check) && exec.ExecError? ==> r == Failure(500, exec.msg)
  {
    if check.FetchRaised? then Failure(500, NoConnectionDetail)
    else if check.NoRow? then Failure(404, "Torre no encontrada")
    else match exec
      case ExecOk => Ok("Torre eliminada exitosamente")
      case ExecError(msg) => Failure(500, msg)
      case ExecRaised => Failure(500, NoConnectionDetail)
  }

  /**
   * `delete_torre`: a missing tower answers 500. A failed existence query
   * returns an error dictionary, which is truthy, so the delete still runs.
   */
  function DeleteTorre(check: FetchOne<int>, exec: Exec): (r: Outcome<string>)
    ensures r.Ok? <==> Truthy(check) && exec.ExecOk?
    ensures r.Failure? ==> r.status == 500 && r.detail == InternalErrorDetail
  {
    Caught(DeleteTorreBody(check, exec))
  }

  const DuplicateTecnico := "Ya existe un técnico con ese DNI"

  /** The body of `create_tecnico`'s `try`: a duplicate key raises 400, any other failure 500. */
  function CreateTecnicoBody(exec: Exec): (r: Outcome<string>)
    ensures r.Ok? <==> exec.ExecOk?
    ensures r.Failure? ==> (r.status == 400 <==> exec.ExecError? && Contains(LowerStr(exec.msg), "duplicate key"))
  {
    match exec
    case ExecOk => Ok("Técnico registrado exitosamente")
    case ExecError(msg) =>
      if Contains(LowerStr(msg), "duplicate key") then Failure(400, DuplicateTecnico) else Failure(500, msg)
    case ExecRaised => Failure(500, NoConnectionDetail)
  }

  /** `create_tecnico`: the duplicate-DNI 400 raised inside the `try` is turned into a 500 as well. */
  function CreateTecnico(exec: Exec): (r: Outcome<string>)
    ensures r.Ok? <==> exec.ExecOk?
    ensures r.Failure? ==> r.status == 500 && r.detail == InternalErrorDetail
  {
    Caught(CreateTecnicoBody(exec))
  }

  /** The 400 of `create_tecnico` is raised for a duplicate key, and never reaches the client. */
  lemma DuplicateDniHidden(msg: string)
    requires Contains(LowerStr(msg), "duplicate key")
    ensures CreateTecnicoBody(ExecError(msg)) == Failure(400, DuplicateTecnico)
    ensures CreateTecnico(ExecError(msg)).status == 500
  {
  }

  // ---------------------------------------------------------- partial update

  /** A value bound to a `?` placeholder. */
  datatype SqlValue = SqlNull | SqlText(text: string) | SqlReal(number: real) | SqlInt(integer: int)

  /** A `TorreUpdate` field: left out of the request body, or given (possibly as `null`). */
  datatype Given<T> = NotGiven | Given(value: T)

  /** The `TorreUpdate` request body, fields in declaration order. */
  datatype TorreUpdate = TorreUpdate(
    nombre: Given<Option<string>>,
    tipo: Given<Option<string>>,
    direccion: Given<Option<string>>,
    latitud: Given<Option<real>>,
    longitud: Given<Option<real>>,
    estado: Given<Option<string>>,
    alcance_km: Given<Option<real>>,
    fecha_ultimo_mantenimiento: Given<Option<string>>,
    frecuencia_mhz: Given<Option<string>>,
    notas: Given<Option<string>>,
    tipo_convenio: Given<Option<string>>,
    UsuarioActualizadorID: Given<int>)

  const Actualizador := "UsuarioActualizadorID"

  /** The columns of `TorreUpdate`, in declaration order. */
  const Columns: seq<string> := [
    "nombre", "tipo", "direccion", "latitud", "longitud", "estado", "alcance_km",
    "fecha_ultimo_mantenimiento", "frecuencia_mhz", "notas", "tipo_convenio", Actualizador]

  /** One `(field, value)` pair of `torre.dict(exclude_unset=True).items()`. */
  datatype Item = Item(name: string, value: SqlValue)

  function TextItem(name: string, g: Given<Option<string>>): (r: seq<Item>)
    ensures |r| <= 1 && (|r| == 1 ==> r[0].name == name)
    ensures r == [] <==> g.NotGiven?
  {
    match g
    case NotGiven => []
    case Given(None) => [Item(name, SqlNull)]
    case Given(Some(s)) => [Item(name, SqlText(s))]
  }

  function RealItem(name: string, g: Given<Option<real>>): (r: seq<Item>)
    ensures |r| <= 1 && (|r| == 1 ==> r[0].name == name)
    ensures r == [] <==> g.NotGiven?
  {
    match g
    case NotGiven => []
    case Given(None) => [Item(name, SqlNull)]
    case Given(Some(x)) => [Item(name, SqlReal(x))]
  }

  /** The pair for the `k`-th column: nothing when the client left that field out. */
  function Piece(u: TorreUpdate, k: nat): (r: seq<Item>)
    requires k < |Columns|
    ensures |r| <= 1 && (|r| == 1 ==> r[0].name == Columns[k])
  {
    match k
    case 0 => TextItem("nombre", u.nombre)
    case 1 => TextItem("tipo", u.tipo)
    case 2 => TextItem("direccion", u.direccion)
    case 3 => RealItem("latitud", u.latitud)
    case 4 => RealItem("longitud", u.longitud)
    case 5 => TextItem("estado", u.estado)
    case 6 => RealItem("alcance_km", u.alcance_km)
    case 7 => TextItem("fecha_ultimo_mantenimiento", u.fecha_ultimo_mantenimiento)
    case 8 => TextItem("frecuencia_mhz", u.frecuencia_mhz)
    case 9 => TextItem("notas", u.notas)
    case 10 => TextItem("tipo_convenio", u.tipo_convenio)
    case _ =>
      match u.UsuarioActualizadorID
      case NotGiven => []
      case Given(v) => [Item(Actualizador, SqlInt(v))]
  }

  /** The pairs for columns `k` onwards. */
  function ExplicitFrom(u: TorreUpdate, k: nat): seq<Item>
    requires k <= |Columns|
    decreases |Columns| - k
  {
    if k == |Columns| then [] else Piece(u, k) + ExplicitFrom(u, k + 1)
  }

  /** `torre.dict(exclude_unset=True).items()`: the fields the client sent, in declaration order. */
  function ExplicitItems(u: TorreUpdate): (r: seq<Item>)
    ensures IsSubseq(Names(r), Columns)
    ensures Distinct(Names(r))
  {
    ExplicitFromOrdered(u, 0);
    assert Columns[0..] == Columns;
    ColumnsDistinct();
    SubseqDistinct(Names(ExplicitFrom(u, 0)), Columns);
    ExplicitFrom(u, 0)
  }

  lemma ColumnsDistinct()
    ensures Distinct(Columns)
  {
  }

  function Names(items: seq<Item>): (r: seq<string>)
    ensures |r| == |items| && forall k :: 0 <= k < |r| ==> r[k] == items[k].name
  {
    seq(|items|, k requires 0 <= k < |items| => items[k].name)
  }

  /** One more column in front: its optional pair goes in front of the later ones. */
  lemma ConsOrdered(piece: seq<Item>, rest: seq<Item>, cols: seq<string>, k: nat)
    requires k < |cols|
    requires |piece| <= 1 && (|piece| == 1 ==> piece[0].name == cols[k])
    requires IsSubseq(Names(rest), cols[k + 1..])
    ensures IsSubseq(Names(piece + rest), cols[k..])
  {
    assert Names(piece + rest) == Names(piece) + Names(rest);
    assert cols[k..] == [cols[k]] + cols[k + 1..];
    SubseqCons(Names(rest), cols[k + 1..], Names(piece), cols[k]);
  }

  lemma {:induction false} ExplicitFromOrdered(u: TorreUpdate, k: nat)
    requires k <= |Columns|
    ensures IsSubseq(Names(ExplicitFrom(u, k)), Columns[k..])
    decreases |Columns| - k
  {
    if k < |Columns| {
      ExplicitFromOrdered(u, k + 1);
      ConsOrdered(Piece(u, k), ExplicitFrom(u, k + 1), Columns, k);
    }
  }

  /** One more column in front: the `k`-th column's name is among the pairs exactly when this piece is its pair or the later pairs hold it. */
  lemma ConsName(piece: seq<Item>, rest: seq<Item>, cols: seq<string>, j: nat, k: nat)
    requires j <= k < |cols| && Distinct(cols)
    requires |piece| <= 1 && (|piece| == 1 ==> piece[0].name == cols[j])
    ensures cols[k] in Names(piece + rest) <==> (j == k && piece != []) || cols[k] in Names(rest)
  {
    assert Names(piece + rest) == Names(piece) + Names(rest);
    assert cols[k] == cols[j] <==> j == k;
  }

  /** A subsequence of the columns after the `k`-th never holds the `k`-th column's name. */
  lemma NotInLater(a: seq<string>, cols: seq<string>, k: nat)
    requires k < |cols| && Distinct(cols)
    requires IsSubseq(a, cols[k + 1..])
    ensures cols[k] !in a
  {
    var later := cols[k + 1..];
    forall i | 0 <= i < |later| ensures later[i] != cols[k] {
      assert later[i] == cols[k + 1 + i];
    }
    if cols[k] in a {
      SubseqMembers(a, later, cols[k]);
    }
  }

  lemma {:induction false} ExplicitFromSent(u: TorreUpdate, j: nat, k: nat)
    requires j <= k < |Columns|
    ensures Columns[k] in Names(ExplicitFrom(u, j)) <==> Piece(u, k) != []
    decreases k - j
  {
    ColumnsDistinct();
    ConsName(Piece(u, j), ExplicitFrom(u, j + 1), Columns, j, k);
    if j == k {
      ExplicitFromOrdered(u, k + 1);
      NotInLater(Names(ExplicitFrom(u, k + 1)), Columns, k);
    } else {
      ExplicitFromSent(u, j + 1, k);
    }
  }

  /** A column is among the pairs exactly when the client sent that field. */
  lemma ExplicitItemsSent(u: TorreUpdate, k: nat)
    requires k < |Columns|
    ensures Columns[k] in Names(ExplicitItems(u)) <==> Piece(u, k) != []
  {
    ExplicitFromSent(u, 0, k);
  }

  /** `torre.UsuarioActualizadorID`: the given value, or the model default 1. */
  function ActualizadorValue(u: TorreUpdate): int {
    match u.UsuarioActualizadorID
    case NotGiven => 1
    case Given(v) => v
  }

  predicate NotActualizador(it: Item) {
    it.name != Actualizador
  }

  /** The items that go into the SET list: everything sent except the updater id, in order. */
  function Kept(items: seq<Item>): (r: seq<Item>)
    ensures forall it :: it in r <==> it in items && it.name != Actualizador
    ensures IsSubseq(r, items)
  {
    assert forall it :: it in Filter(items, NotActualizador) <==> it in items && NotActualizador(it) by {
      forall it ensures it in Filter(items, NotActualizador) <==> it in items && NotActualizador(it) {
        FilterMembers(items, NotActualizador, it);
      }
    }
    FilterIsSubseq(items, NotActualizador);
    Filter(items, NotActualizador)
  }

  /** Each item other than the updater id is kept as often as it was sent. */
  lemma KeptMultiplicity(items: seq<Item>, it: Item)
    ensures multiset(Kept(items))[it] == if it.name != Actualizador then multiset(items)[it] else 0
  {
    FilterMultiplicity(items, NotActualizador, it);
  }

  lemma KeptSnoc(items: seq<Item>, it: Item)
    ensures Kept(items + [it]) == Kept(items) + (if NotActualizador(it) then [it] else [])
  {
    FilterSnoc(items, it, NotActualizador);
  }

  /** `f"{field} = ?"` for each item. */
  function Clauses(items: seq<Item>): (r: seq<string>)
    ensures |r| == |items|
    ensures forall k :: 0 <= k < |r| ==> r[k] == items[k].name + " = ?"
  {
    seq(|items|, k requires 0 <= k < |items| => items[k].name + " = ?")
  }

  function Values(items: seq<Item>): (r: seq<SqlValue>)
    ensures |r| == |items|
    ensures forall k :: 0 <= k < |r| ==> r[k] == items[k].value
  {
    seq(|items|, k requires 0 <= k < |items| => items[k].value)
  }

  lemma ClausesSnoc(items: seq<Item>, it: Item)
    ensures Clauses(items + [it]) == Clauses(items) + [it.name + " = ?"]
    ensures Values(items + [it]) == Values(items) + [it.value]
  {
  }

  /**
   * The loop of `update_torre` over the sent fields: one `field = ?` clause
   * and one parameter per field other than the updater id, in order.
   */
  method BuildUpdate(items: seq<Item>) returns (updateFields: seq<string>, params: seq<SqlValue>)
    ensures updateFields == Clauses(Kept(items))
    ensures params == Values(Kept(items))
  {
    updateFields := [];
    params := [];
    var i := 0;
    while i < |items|
      invariant 0 <= i <= |items|
      invariant updateFields == Clauses(Kept(items[..i]))
      invariant params == Values(Kept(items[..i]))
    {
      var field, value := items[i].name, items[i].value;
      assert items[..i + 1] == items[..i] + [items[i]];
      KeptSnoc(items[..i], items[i]);
      if field != Actualizador {
        ClausesSnoc(Kept(items[..i]), items[i]);
        updateFields := updateFields + [field + " = ?"];
        params := params + [value];
      }
      i := i + 1;
    }
    assert items[..i] == items;
  }

  /** The UPDATE statement for a SET list. */
  function UpdateSql(setList: seq<string>): (r: string)
    ensures StartsWith(r, SetPrefix)
    ensures CountChar(r, '?') == SumCount(setList, '?') + 1
  {
    SetPrefixPlaceholders();
    SeparatorPlaceholders();
    WherePlaceholders();
    StatementPlaceholders(SetPrefix, ClauseSeparator, setList, WhereId);
    var r := SetPrefix + Join(setList, ClauseSeparator) + WhereId;
    assert r[..|SetPrefix|] == SetPrefix;
    r
  }

  /** What `update_torre` sends to the database, if anything. */
  datatype Statement = Statement(sql: string, params: seq<SqlValue>)

  const UpdateDoneMessage := "Torre actualizada exitosamente"

  /**
   * `update_torre`. A missing tower answers 500, and so does a lost
   * connection on either query. When nothing but the
   * updater id was sent, no statement runs and the update still reports
   * success. Otherwise the SET list is the sent fields in order, then the
   * timestamp, then the updater id; the parameters are their values, then
   * the updater id, then the tower id.
   */
  method UpdateTorre(torreId: int, u: TorreUpdate, check: FetchOne<int>, exec: Exec)
    returns (outcome: Outcome<string>, statement: Option<Statement>)
    ensures !Truthy(check) ==> outcome == Failure(500, InternalErrorDetail) && statement.None?
    ensures Truthy(check) && Kept(ExplicitItems(u)) == [] ==> outcome == Ok(UpdateDoneMessage) && statement.None?
    ensures Truthy(check) && Kept(ExplicitItems(u)) != [] ==>
              statement == Some(Statement(
                UpdateSql(Clauses(Kept(ExplicitItems(u)))
                          + [TimestampClause, ActualizadorClause]),
                Values(Kept(ExplicitItems(u))) + [SqlInt(ActualizadorValue(u)), SqlInt(torreId)])) &&
              outcome == (if exec.ExecOk? then Ok(UpdateDoneMessage) else Failure(500, InternalErrorDetail))
    ensures statement.Some? ==> CountChar(statement.value.sql, '?') == |statement.value.params|
  {
    statement := None;
    var raised: Outcome<string>;
    if check.FetchRaised? {
      raised := Failure(500, NoConnectionDetail);
    } else if check.NoRow? {
      raised := Failure(404, "Torre no encontrada");
    } else {
      var updateFields, params := BuildUpdate(ExplicitItems(u));
      if updateFields != [] {
        updateFields := updateFields + [TimestampClause, ActualizadorClause];
        params := params + [SqlInt(ActualizadorValue(u)), SqlInt(torreId)];
        statement := Some(Statement(UpdateSql(updateFields), params));
        PlaceholdersMatch(u, torreId);
        match exec {
          case ExecOk => raised := Ok(UpdateDoneMessage);
          case ExecError(msg) => raised := Failure(500, msg);
          case ExecRaised => raised := Failure(500, NoConnectionDetail);
        }
      } else {
        raised := Ok(UpdateDoneMessage);
      }
    }
    outcome := Caught(raised);
  }

  /** Every column name is a plain identifier: none contains a `?`. */
  lemma ColumnsHaveNoPlaceholder(u: TorreUpdate)
    ensures forall it :: it in ExplicitItems(u) ==> CountChar(it.name, '?') == 0
  {
    forall it | it in ExplicitItems(u) ensures CountChar(it.name, '?') == 0 {
      var k :| 0 <= k < |ExplicitItems(u)| && ExplicitItems(u)[k] == it;
      assert Names(ExplicitItems(u))[k] == it.name;
      SubseqMembers(Names(ExplicitItems(u)), Columns, it.name);
      NoPlaceholderInColumns(it.name);
    }
  }

  lemma NoPlaceholderInColumns(name: string)
    requires name in Columns
    ensures CountChar(name, '?') == 0
  {
    NoCharNoCount(name, '?');
  }

  const SetPrefix := "UPDATE Torres SET "
  const ClauseSeparator := ", "
  const TimestampClause := "fecha_actualizacion = GETDATE()"
  const ActualizadorClause := Actualizador + " = ?"
  const WhereClause := " WHERE id = "
  const WhereId := WhereClause + "?"

  lemma SetPrefixPlaceholders() ensures CountChar(SetPrefix, '?') == 0 {
    NoCharNoCount(SetPrefix, '?');
  }

  lemma SeparatorPlaceholders() ensures CountChar(ClauseSeparator, '?') == 0 {
    NoCharNoCount(ClauseSeparator, '?');
  }

  lemma TimestampPlaceholders() ensures CountChar(TimestampClause, '?') == 0 {
    NoCharNoCount(TimestampClause, '?');
  }

  lemma WherePlaceholders() ensures CountChar(WhereId, '?') == 1 {
    NoCharNoCount(WhereClause, '?');
    OnePlaceholder();
    CountCharAppend(WhereClause, "?", '?');
  }

  lemma OnePlaceholder() ensures CountChar("?", '?') == 1 {
    assert "?"[1..] == [];
  }

  /** Prefix and separator free of `?`: the statement's placeholders are those of its clauses and of its tail. */
  lemma StatementPlaceholders(prefix: string, sep: string, setList: seq<string>, suffix: string)
    requires CountChar(prefix, '?') == 0 && CountChar(sep, '?') == 0
    ensures CountChar(prefix + Join(setList, sep) + suffix, '?') == SumCount(setList, '?') + CountChar(suffix, '?')
  {
    CountCharJoin(setList, sep, '?');
    CountCharAppend(prefix, Join(setList, sep), '?');
    CountCharAppend(prefix + Join(setList, sep), suffix, '?');
  }

  /** The two fixed clauses after the sent ones add one placeholder. */
  lemma TailPlaceholders(clauses: seq<string>, timestamp: string, actualizador: string)
    requires CountChar(timestamp, '?') == 0 && CountChar(actualizador, '?') == 1
    ensures SumCount(clauses + [timestamp, actualizador], '?') == SumCount(clauses, '?') + 1
  {
    SumCountAppend(clauses, [timestamp, actualizador], '?');
    assert [timestamp, actualizador][1..] == [actualizador];
    assert [actualizador][1..] == [];
    assert SumCount([actualizador], '?') == 1;
  }

  /** `f"{field} = ?"` for a field name free of `?` holds one placeholder. */
  lemma ClausePlaceholder(name: string)
    requires CountChar(name, '?') == 0
    ensures CountChar(name + " = ?", '?') == 1
  {
    CountCharAppend(name, " = ?", '?');
    assert CountChar(" = ?", '?') == 1;
  }

  /** Each clause carries exactly one placeholder. */
  lemma {:induction false} ClausePlaceholders(items: seq<Item>)
    requires forall it :: it in items ==> CountChar(it.name, '?') == 0
    ensures SumCount(Clauses(items), '?') == |items|
  {
    if items != [] {
      var n := |items| - 1;
      ClausePlaceholders(items[..n]);
      assert Clauses(items) == Clauses(items[..n]) + [items[n].name + " = ?"];
      SumCountAppend(Clauses(items[..n]), [items[n].name + " = ?"], '?');
      ClausePlaceholder(items[n].name);
      assert SumCount([items[n].name + " = ?"], '?') == CountChar(items[n].name + " = ?", '?');
    }
  }

  lemma ActualizadorClausePlaceholders() ensures CountChar(ActualizadorClause, '?') == 1 {
    NoCharNoCount(Actualizador, '?');
    ClausePlaceholder(Actualizador);
  }

  /** The clauses for the sent fields hold one placeholder each. */
  lemma SentClausesPlaceholders(u: TorreUpdate)
    ensures SumCount(Clauses(Kept(ExplicitItems(u))), '?') == |Kept(ExplicitItems(u))|
  {
    ColumnsHaveNoPlaceholder(u);
    ClausePlaceholders(Kept(ExplicitItems(u)));
  }

  /** The `?` placeholders of the generated UPDATE line up one-to-one with its parameters. */
  lemma PlaceholdersMatch(u: TorreUpdate, torreId: int)
    ensures var kept := Kept(ExplicitItems(u));
            CountChar(UpdateSql(Clauses(kept) + [TimestampClause, ActualizadorClause]), '?')
            == |Values(kept) + [SqlInt(ActualizadorValue(u)), SqlInt(torreId)]|
  {
    var kept := Kept(ExplicitItems(u));
    SentClausesPlaceholders(u);
    TimestampPlaceholders();
    ActualizadorClausePlaceholders();
    SetPrefixPlaceholders();
    SeparatorPlaceholders();
    WherePlaceholders();
    UpdatePlaceholders(kept, SetPrefix, ClauseSeparator, TimestampClause, ActualizadorClause, WhereId);
  }

  lemma UpdatePlaceholders(kept: seq<Item>, prefix: string, sep: string, timestamp: string, actualizador: string, suffix: string)
    requires SumCount(Clauses(kept), '?') == |kept|
    requires CountChar(prefix, '?') == 0 && CountChar(sep, '?') == 0 && CountChar(timestamp, '?') == 0
    requires CountChar(actualizador, '?') == 1 && CountChar(suffix, '?') == 1
    ensures CountChar(prefix + Join(Clauses(kept) + [timestamp, actualizador], sep) + suffix, '?') == |kept| + 2
  {
    TailPlaceholders(Clauses(kept), timestamp, actualizador);
    StatementPlaceholders(prefix, sep, Clauses(kept) + [timestamp, actualizador], suffix);
  }

  // -------------------------------------------------------------- statistics

  /** One row of the grouped convenio query. */
  datatype ConvenioRow = ConvenioRow(tipo_convenio: Option<string>, count: nat)

  /** The count of the last row carrying `tag`, or 0 when none does. */
  function LastCount(rows: seq<ConvenioRow>, tag: string): (r: nat)
    ensures r == 0 || exists k :: 0 <= k < |rows| && rows[k].tipo_convenio == Some(tag) && rows[k].count == r
  {
    if rows == [] then 0
    else if rows[|rows| - 1].tipo_convenio == Some(tag) then rows[|rows| - 1].count
    else LastCount(rows[..|rows| - 1], tag)
  }

  /** A tag no row carries counts 0. */
  lemma {:induction false} LastCountAbsent(rows: seq<ConvenioRow>, tag: string)
    requires forall k :: 0 <= k < |rows| ==> rows[k].tipo_convenio != Some(tag)
    ensures LastCount(rows, tag) == 0
  {
    if rows != [] {
      var n := |rows| - 1;
      assert forall k :: 0 <= k < n ==> rows[..n][k] == rows[k];
      LastCountAbsent(rows[..n], tag);
    }
  }

  /** The last row carrying a tag decides its counter. */
  lemma {:induction false} LastRowWins(rows: seq<ConvenioRow>, tag: string, k: nat)
    requires k < |rows| && rows[k].tipo_convenio == Some(tag)
    requires forall j :: k < j < |rows| ==> rows[j].tipo_convenio != Some(tag)
    ensures LastCount(rows, tag) == rows[k].count
  {
    var n := |rows| - 1;
    if k < n {
      assert rows[..n][k] == rows[k];
      assert forall j :: k < j < n ==> rows[..n][j] == rows[j];
      LastRowWins(rows[..n], tag, k);
    }
  }

  /** `x.get('total', 0) if x else 0` on a count query that returned: the count, or 0 for no row or an error dictionary. */
  function CountOrZero(fetched: FetchOne<nat>): (r: nat)
    ensures fetched.RowFound? ==> r == fetched.row
    ensures !fetched.RowFound? ==> r == 0
  {
    if fetched.RowFound? then fetched.row else 0
  }

  /**
   * The counter loop of `get_estadisticas`: all three counters start at 0 and
   * a row whose tag is exactly one of the agreement types overwrites that
   * type's counter.
   */
  method TallyConvenios(rows: seq<ConvenioRow>) returns (ecom: nat, policia: nat, terceros: nat)
    ensures ecom == LastCount(rows, "Ecom")
    ensures policia == LastCount(rows, "Policia")
    ensures terceros == LastCount(rows, "De tercero")
  {
    ecom, policia, terceros := 0, 0, 0;
    var i := 0;
    while i < |rows|
      invariant 0 <= i <= |rows|
      invariant ecom == LastCount(rows[..i], "Ecom")
      invariant policia == LastCount(rows[..i], "Policia")
      invariant terceros == LastCount(rows[..i], "De tercero")
    {
      var row := rows[i];
      assert rows[..i + 1][..i] == rows[..i];
      if row.tipo_convenio == Some("Ecom") {
        ecom := row.count;
      } else if row.tipo_convenio == Some("Policia") {
        policia := row.count;
      } else if row.tipo_convenio == Some("De tercero") {
        terceros := row.count;
      }
      i := i + 1;
    }
    assert rows[..i] == rows;
  }

  /**
   * `get_estadisticas`. The three counters start at 0 and each row whose
   * tag is exactly one of the three agreement types sets that counter.
   * An error dictionary from a list query is iterated as a dict and fails
   * on the first key, so the route answers 500, as does a lost connection
   * on any of the four queries; `cobertura` stands for the coverage figure
   * computed from the range rows.
   */
  method GetEstadisticas(total: FetchOne<nat>, porConvenio: FetchAll<ConvenioRow>,
                         visitadas: FetchOne<nat>, alcances: FetchAll<real>, cobertura: real)
    returns (outcome: Outcome<Estadisticas>)
    ensures total.FetchRaised? || !porConvenio.Rows? || visitadas.FetchRaised? || !alcances.Rows? ==>
              outcome == Failure(500, InternalErrorDetail)
    ensures !total.FetchRaised? && porConvenio.Rows? && !visitadas.FetchRaised? && alcances.Rows? ==>
              outcome == Ok(Estadisticas(
                CountOrZero(total),
                LastCount(porConvenio.rows, "Ecom"),
                LastCount(porConvenio.rows, "Policia"),
                LastCount(porConvenio.rows, "De tercero"),
                CountOrZero(visitadas),
                cobertura))
  {
    if total.FetchRaised? {
      outcome := Caught(Failure(500, NoConnectionDetail));
      return;
    }
    var totalTorres := if total.RowFound? then total.row else 0;
    if porConvenio.RowsRaised? {
      outcome := Caught(Failure(500, NoConnectionDetail));
      return;
    }
    if porConvenio.RowsError? {
      outcome := Caught(Failure(500, "string indices must be integers"));
      return;
    }
    var ecom, policia, terceros := TallyConvenios(porConvenio.rows);
    if visitadas.FetchRaised? {
      outcome := Caught(Failure(500, NoConnectionDetail));
      return;
    }
    var torresVisitadas := if visitadas.RowFound? then visitadas.row else 0;
    if alcances.RowsRaised? {
      outcome := Caught(Failure(500, NoConnectionDetail));
      return;
    }
    if alcances.RowsError? {
      outcome := Caught(Failure(500, "string indices must be integers"));
      return;
    }
    outcome := Caught(Ok(Estadisticas(totalTorres, ecom, policia, terceros, torresVisitadas, cobertura)));
  }

  /** How many towers carry an agreement tag. */
  function CountLabel(labels: seq<Option<string>>, l: Option<string>): nat {
    |Filter(labels, (x: Option<string>) => x == l)|
  }

  /** Rows produced by `GROUP BY tipo_convenio` over the towers' labels: each row counts its tag. */
  predicate GroupedFrom(rows: seq<ConvenioRow>, labels: seq<Option<string>>) {
    forall k :: 0 <= k < |rows| ==> rows[k].count == CountLabel(labels, rows[k].tipo_convenio)
  }

  lemma {:induction false} LastCountIsGroupCount(rows: seq<ConvenioRow>, labels: seq<Option<string>>, tag: string)
    requires GroupedFrom(rows, labels)
    ensures LastCount(rows, tag) == 0 || LastCount(rows, tag) == CountLabel(labels, Some(tag))
  {
    if rows != [] {
      var n := |rows| - 1;
      assert GroupedFrom(rows[..n], labels) by {
        forall k | 0 <= k < n ensures rows[..n][k].count == CountLabel(labels, rows[..n][k].tipo_convenio) {
          assert rows[..n][k] == rows[k];
        }
      }
      LastCountIsGroupCount(rows[..n], labels, tag);
    }
  }

  /**
   * When the grouped rows and the total both come from the same towers, the
   * three agreement counters add up to at most the total.
   */
  lemma GroupedTallyBounded(rows: seq<ConvenioRow>, labels: seq<Option<string>>)
    requires GroupedFrom(rows, labels)
    ensures LastCount(rows, "Ecom") + LastCount(rows, "Policia") + LastCount(rows, "De tercero") <= |labels|
  {
    LastCountIsGroupCount(rows, labels, "Ecom");
    LastCountIsGroupCount(rows, labels, "Policia");
    LastCountIsGroupCount(rows, labels, "De tercero");
    DisjointCounts(labels,
      (x: Option<string>) => x == Some("Ecom"),
      (x: Option<string>) => x == Some("Policia"),
      (x: Option<string>) => x == Some("De tercero"));
  }

  /**
   * The same bound on the record `GetEstadisticas` returns: when the total
   * counts the towers that were grouped, the three agreement counters add up
   * to at most `total_torres`.
   */
  lemma GroupedStatsBounded(total: FetchOne<nat>, rows: seq<ConvenioRow>, labels: seq<Option<string>>, e: Estadisticas)
    requires total == RowFound(|labels|) && GroupedFrom(rows, labels)
    requires e.total_torres == CountOrZero(total)
    requires e.torres_ecom == LastCount(rows, "Ecom")
    requires e.torres_policia == LastCount(rows, "Policia")
    requires e.torres_de_terceros == LastCount(rows, "De tercero")
    ensures e.torres_ecom + e.torres_policia + e.torres_de_terceros <= e.total_torres
  {
    GroupedTallyBounded(rows, labels);
  }
}
