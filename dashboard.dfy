/**
 * The dashboard page (App.js): the tower list and statistics snapshot it
 * holds, the form it opens, and the handlers that keep the list in step
 * with the server. Every request's outcome is a parameter; toasts are
 * recorded as a list of notices.
 */
module Dashboard {
  import opened Wrappers
  import opened Seqs
  import opened Towers
  import opened TorreForm

  /** How an awaited request ended: its response's `data` (possibly missing), or a rejection. */
  datatype Response<T> = Fulfilled(data: T) | Rejected

  /** A toast. */
  datatype Notice = Notice(title: string, description: string, destructive: bool)

  /**
   * The `estadisticas` state: `null`/`undefined`, the `{}` put in place of
   * missing data on the first load, or a statistics record.
   */
  datatype StatsState = Unset | EmptyObject | Snapshot(value: Estadisticas)

  // ------------------------------------------------------------ list patches

  /** `prev.filter(t => t.id !== id)` */
  function RemoveById(torres: seq<Tower>, id: Option<nat>): (r: seq<Tower>)
    ensures forall t :: t in r <==> t in torres && t.id != id
    ensures IsSubseq(r, torres)
    ensures forall t :: multiset(r)[t] == if t.id != id then multiset(torres)[t] else 0
  {
    var keep := (t: Tower) => t.id != id;
    assert forall t :: t in Filter(torres, keep) <==> t in torres && t.id != id by {
      forall t ensures t in Filter(torres, keep) <==> t in torres && t.id != id {
        FilterMembers(torres, keep, t);
      }
    }
    assert forall t :: multiset(Filter(torres, keep))[t] == if t.id != id then multiset(torres)[t] else 0 by {
      forall t ensures multiset(Filter(torres, keep))[t] == if t.id != id then multiset(torres)[t] else 0 {
        FilterMultiplicity(torres, keep, t);
      }
    }
    FilterIsSubseq(torres, keep);
    Filter(torres, keep)
  }

  /** `{ ...t, ...formData, id }`: every submitted field replaces the tower's, the id is forced. */
  function Overlay(t: Tower, p: Payload, id: Option<nat>): (r: Tower)
    ensures r.id == id && r.audit == t.audit
    ensures r.nombre == Some(p.nombre) && r.tipo == Some(p.tipo) && r.direccion == Some(p.direccion)
    ensures r.latitud == Some(p.latitud) && r.longitud == Some(p.longitud)
    ensures r.estado == Some(p.estado) && r.alcance_km == Some(p.alcance_km)
    ensures r.fecha_ultimo_mantenimiento == p.fecha_ultimo_mantenimiento
    ensures r.frecuencia_mhz == p.frecuencia_mhz && r.notas == p.notas
    ensures r.tipo_convenio == Some(p.tipo_convenio)
  {
    t.(id := id,
       nombre := Some(p.nombre),
       tipo := Some(p.tipo),
       direccion := Some(p.direccion),
       latitud := Some(p.latitud),
       longitud := Some(p.longitud),
       estado := Some(p.estado),
       alcance_km := Some(p.alcance_km),
       fecha_ultimo_mantenimiento := p.fecha_ultimo_mantenimiento,
       frecuencia_mhz := p.frecuencia_mhz,
       notas := p.notas,
       tipo_convenio := Some(p.tipo_convenio))
  }

  /** Of the tower being replaced only its audit fields survive the overlay. */
  lemma OverlayKeepsOnlyAudit(t: Tower, t': Tower, p: Payload, id: Option<nat>)
    requires t.audit == t'.audit
    ensures Overlay(t, p, id) == Overlay(t', p, id)
  {
  }

  /** `prev.map(t => t.id === id ? overlay : t)` */
  function ApplyUpdate(torres: seq<Tower>, id: Option<nat>, p: Payload): (r: seq<Tower>)
    ensures |r| == |torres|
    ensures forall i :: 0 <= i < |r| && torres[i].id != id ==> r[i] == torres[i]
    ensures forall i :: 0 <= i < |r| && torres[i].id == id ==> r[i] == Overlay(torres[i], p, id)
  {
    seq(|torres|, i requires 0 <= i < |torres| =>
      if torres[i].id == id then Overlay(torres[i], p, id) else torres[i])
  }

  /** An update never adds, drops or renumbers a tower. */
  lemma UpdateKeepsIds(torres: seq<Tower>, id: Option<nat>, p: Payload)
    ensures Ids(ApplyUpdate(torres, id, p)) == Ids(torres)
  {
  }

  /** With unique ids, deleting a listed tower shortens the list by exactly one. */
  lemma {:induction false} RemoveListedTower(torres: seq<Tower>, target: Tower)
    requires UniqueIds(torres) && target in torres
    ensures |RemoveById(torres, target.id)| == |torres| - 1
  {
    var keep := (t: Tower) => t.id != target.id;
    assert torres == [torres[0]] + torres[1..];
    if torres[0] == target {
      assert forall i :: 0 <= i < |torres[1..]| ==> keep(torres[1..][i]) by {
        forall i | 0 <= i < |torres[1..]| ensures keep(torres[1..][i]) {
          assert torres[1..][i] == torres[i + 1];
        }
      }
      FilterKeepsAll(torres[1..], keep);
    } else {
      assert torres[0].id != target.id by {
        var k :| 0 <= k < |torres| && torres[k] == target;
        assert k != 0;
      }
      assert UniqueIds(torres[1..]) by {
        forall i, j | 0 <= i < j < |torres[1..]| ensures torres[1..][i].id != torres[1..][j].id {
          assert torres[1..][i] == torres[i + 1] && torres[1..][j] == torres[j + 1];
        }
      }
      RemoveListedTower(torres[1..], target);
    }
  }

  /**
   * Editing a tower the form accepts and saving it untouched gives the same
   * tower back, provided its optional texts are not stored as `""` (those
   * come back as `null`).
   */
  lemma EditRoundTrip(t: Tower, parseFloat: string -> Option<real>, render: real -> string)
    requires ConformingTower(t) && NumbersReparse(t, parseFloat, render)
    requires parseFloat("") == None
    requires t.fecha_ultimo_mantenimiento != Some("")
    requires t.frecuencia_mhz != Some("")
    requires t.notas != Some("")
    ensures FormValid(InitialForm(Some(t), render), parseFloat)
    ensures Overlay(t, SubmitPayload(InitialForm(Some(t), render), parseFloat), t.id) == t
  {
    ConformingTowerValidates(t, parseFloat, render);
  }

  // ------------------------------------------------------------ quick summary

  function CountEstado(torres: seq<Tower>, estado: string): (r: nat)
    ensures r <= |torres|
  {
    |Filter(torres, (t: Tower) => t.estado == Some(estado))|
  }

  /** "Resumen Rápido": the three shown counts never add up to more than the total. */
  lemma SummaryCountsBounded(torres: seq<Tower>)
    ensures CountEstado(torres, "operativa") + CountEstado(torres, "mantenimiento")
              + CountEstado(torres, "inactiva") <= |torres|
  {
    DisjointCounts(torres,
      (t: Tower) => t.estado == Some("operativa"),
      (t: Tower) => t.estado == Some("mantenimiento"),
      (t: Tower) => t.estado == Some("inactiva"));
  }

  // ------------------------------------------------------------------- state

  const TorresLoadFailed := Notice("Error", "No se pudieron cargar las torres", true)
  const DeleteDone := Notice("Éxito", "Torre eliminada correctamente", false)
  const DeleteFailed := Notice("Error", "No se pudo eliminar la torre", true)
  const UpdateDone := Notice("Éxito", "Torre actualizada correctamente", false)
  const CreateDone := Notice("Éxito", "Torre creada correctamente", false)
  const UpdateFailed := Notice("Error", "No se pudo actualizar la torre", true)
  const CreateFailed := Notice("Error", "No se pudo crear la torre", true)

  /** The state after a statistics refresh that follows a mutation: `setEstadisticas(response.data)`. */
  function Refreshed(prev: StatsState, resp: Response<Option<Estadisticas>>): (r: StatsState)
    ensures resp.Rejected? ==> r == prev
    ensures resp.Fulfilled? ==> (r.Snapshot? <==> resp.data.Some?) && (r.Snapshot? ==> r.value == resp.data.value)
    ensures resp == Fulfilled(None) ==> r == Unset
  {
    match resp
    case Rejected => prev
    case Fulfilled(None) => Unset
    case Fulfilled(Some(e)) => Snapshot(e)
  }

  class DashboardState {
    var torres: seq<Tower>
    var estadisticas: StatsState
    var loading: bool
    var showForm: bool
    var editingTorre: Option<Tower>
    var formLoading: bool
    var notices: seq<Notice>

    constructor ()
      ensures torres == [] && estadisticas == Unset && loading
      ensures !showForm && editingTorre == None && !formLoading && notices == []
    {
      torres := [];
      estadisticas := Unset;
      loading := true;
      showForm := false;
      editingTorre := None;
      formLoading := false;
      notices := [];
    }

    /**
     * `loadInitialData`: the two requests settle independently. The list is
     * replaced only by a fulfilled list request (missing data gives `[]`) and
     * a rejected one is reported; the statistics are replaced only by a
     * fulfilled statistics request (missing data gives `{}`) and a rejected
     * one is silent. Loading ends in every case.
     */
    method LoadInitialData(torresResp: Response<Option<seq<Tower>>>, statsResp: Response<Option<Estadisticas>>)
      modifies this
      ensures !loading
      ensures torresResp.Fulfilled? ==> torres == torresResp.data.GetOr([]) && notices == old(notices)
      ensures torresResp.Rejected? ==> torres == old(torres) && notices == old(notices) + [TorresLoadFailed]
      ensures statsResp.Rejected? ==> estadisticas == old(estadisticas)
      ensures statsResp == Fulfilled(None) ==> estadisticas == EmptyObject
      ensures statsResp.Fulfilled? && statsResp.data.Some? ==> estadisticas == Snapshot(statsResp.data.value)
      ensures showForm == old(showForm) && editingTorre == old(editingTorre) && formLoading == old(formLoading)
    {
      loading := true;
      if torresResp.Fulfilled? {
        torres := torresResp.data.GetOr([]);
      } else {
        notices := notices + [TorresLoadFailed];
      }
      if statsResp.Fulfilled? {
        estadisticas := if statsResp.data.Some? then Snapshot(statsResp.data.value) else EmptyObject;
      }
      loading := false;
    }

    /** `handleAddTorre`: opens an empty form. */
    method HandleAddTorre()
      modifies this
      ensures editingTorre == None && showForm
      ensures torres == old(torres) && estadisticas == old(estadisticas) && notices == old(notices)
      ensures loading == old(loading) && formLoading == old(formLoading)
    {
      editingTorre := None;
      showForm := true;
    }

    /** `handleEditTorre`: opens the form on a tower. */
    method HandleEditTorre(t: Tower)
      modifies this
      ensures editingTorre == Some(t) && showForm
      ensures torres == old(torres) && estadisticas == old(estadisticas) && notices == old(notices)
      ensures loading == old(loading) && formLoading == old(formLoading)
    {
      editingTorre := Some(t);
      showForm := true;
    }

    /**
     * `handleDeleteTorre`: nothing happens unless confirmed. A successful
     * delete drops every tower with the target's id, and the statistics
     * refresh after it may fail without undoing that; a failed delete only
     * reports.
     */
    method HandleDeleteTorre(target: Tower, confirmed: bool, deleteResp: Response<()>,
                             statsResp: Response<Option<Estadisticas>>)
      modifies this
      ensures !confirmed ==> torres == old(torres) && estadisticas == old(estadisticas) && notices == old(notices)
      ensures confirmed && deleteResp.Fulfilled? ==>
                torres == RemoveById(old(torres), target.id) &&
                estadisticas == Refreshed(old(estadisticas), statsResp) &&
                notices == old(notices) + [DeleteDone]
      ensures confirmed && deleteResp.Rejected? ==>
                torres == old(torres) && estadisticas == old(estadisticas) &&
                notices == old(notices) + [DeleteFailed]
      ensures showForm == old(showForm) && editingTorre == old(editingTorre)
      ensures loading == old(loading) && formLoading == old(formLoading)
    {
      if !confirmed {
        return;
      }
      if deleteResp.Rejected? {
        notices := notices + [DeleteFailed];
        return;
      }
      torres := RemoveById(torres, target.id);
      notices := notices + [DeleteDone];
      estadisticas := Refreshed(estadisticas, statsResp);
    }

    /**
     * `handleFormSubmit`. Editing: a successful save patches the matching
     * towers in place. Creating: a successful save is followed by a reload
     * that replaces the whole list, and a failed reload counts as a failed
     * save. On success the form closes and the statistics are refreshed
     * (a failed refresh is swallowed); on failure only a notice is added.
     * The busy flag is cleared in every case.
     */
    method HandleFormSubmit(payload: Payload, saveResp: Response<()>,
                            reloadResp: Response<Option<seq<Tower>>>,
                            statsResp: Response<Option<Estadisticas>>)
      modifies this
      ensures !formLoading
      ensures loading == old(loading)
      ensures old(editingTorre).Some? && saveResp.Fulfilled? ==>
                torres == ApplyUpdate(old(torres), old(editingTorre).value.id, payload) &&
                !showForm && editingTorre == None &&
                estadisticas == Refreshed(old(estadisticas), statsResp) &&
                notices == old(notices) + [UpdateDone]
      ensures old(editingTorre).Some? && saveResp.Rejected? ==>
                torres == old(torres) && showForm == old(showForm) && editingTorre == old(editingTorre) &&
                estadisticas == old(estadisticas) && notices == old(notices) + [UpdateFailed]
      ensures old(editingTorre).None? && saveResp.Fulfilled? && reloadResp.Fulfilled? ==>
                torres == reloadResp.data.GetOr([]) &&
                !showForm && editingTorre == None &&
                estadisticas == Refreshed(old(estadisticas), statsResp) &&
                notices == old(notices) + [CreateDone]
      ensures old(editingTorre).None? && (saveResp.Rejected? || reloadResp.Rejected?) ==>
                torres == old(torres) && showForm == old(showForm) && editingTorre == old(editingTorre) &&
                estadisticas == old(estadisticas) && notices == old(notices) + [CreateFailed]
    {
      formLoading := true;
      var failed := false;
      if editingTorre.Some? {
        if saveResp.Rejected? {
          failed := true;
        } else {
          torres := ApplyUpdate(torres, editingTorre.value.id, payload);
          notices := notices + [UpdateDone];
        }
      } else {
        if saveResp.Rejected? || reloadResp.Rejected? {
          failed := true;
        } else {
          torres := reloadResp.data.GetOr([]);
          notices := notices + [CreateDone];
        }
      }
      if failed {
        notices := notices + [if editingTorre.Some? then UpdateFailed else CreateFailed];
      } else {
        showForm := false;
        editingTorre := None;
        estadisticas := Refreshed(estadisticas, statsResp);
      }
      formLoading := false;
    }
  }
}
