/**
 * The tower record as the backend returns it (`Torre` in backend/models.py)
 * and as the dashboard holds it. Every field may be absent on the client,
 * so each is an `Option`; the identifier is the server-assigned integer.
 */
module Towers {
  import opened Wrappers

  /** Bookkeeping columns the list query returns besides the editable fields. */
  datatype Audit = Audit(
    usuarioCreadorId: Option<int>,
    usuarioActualizadorId: Option<int>,
    fechaCreacion: Option<string>,
    fechaActualizacion: Option<string>)

  datatype Tower = Tower(
    id: Option<nat>,
    nombre: Option<string>,
    tipo: Option<string>,
    direccion: Option<string>,
    latitud: Option<real>,
    longitud: Option<real>,
    estado: Option<string>,
    alcance_km: Option<real>,
    fecha_ultimo_mantenimiento: Option<string>,
    frecuencia_mhz: Option<string>,
    notas: Option<string>,
    tipo_convenio: Option<string>,
    audit: Audit)

  /** The identifiers of a list of towers, in order. */
  function Ids(torres: seq<Tower>): (r: seq<Option<nat>>)
    ensures |r| == |torres| && forall i :: 0 <= i < |r| ==> r[i] == torres[i].id
  {
    seq(|torres|, i requires 0 <= i < |torres| => torres[i].id)
  }

  /** No two towers of the list share an identifier (the database key). */
  predicate UniqueIds(torres: seq<Tower>) {
    forall i, j :: 0 <= i < j < |torres| ==> torres[i].id != torres[j].id
  }

  /**
   * The statistics record the `/estadisticas` route returns and the
   * dashboard keeps (`EstadisticasResponse` in backend/models.py).
   */
  datatype Estadisticas = Estadisticas(
    total_torres: nat,
    torres_ecom: nat,
    torres_policia: nat,
    torres_de_terceros: nat,
    torres_visitadas: nat,
    cobertura_km2: real)
}
