/**
 * The create/edit form for a tower (TorreForm.jsx): the form state as
 * eleven strings, the field-by-field validator that fills an error map,
 * the payload handed to `onSubmit`, the change handler and the mapping of
 * an existing tower into the form.
 *
 * `parseFloat` is a parameter: `None` stands for `NaN` and `Some(x)` for a
 * finite number; infinite results are not modelled. JavaScript gives
 * `parseFloat("") === NaN`; results that rely on it say so in a requires.
 */
module TorreForm {
  import opened Wrappers
  import opened Text
  import opened Towers

  datatype Field =
    | Nombre | Tipo | Direccion | Latitud | Longitud | Estado | AlcanceKm
    | FechaUltimoMantenimiento | FrecuenciaMhz | Notas | TipoConvenio

  /** The `formData` state object: every field is held as the text the input shows. */
  datatype FormData = FormData(
    nombre: string,
    tipo: string,
    direccion: string,
    latitud: string,
    longitud: string,
    estado: string,
    alcance_km: string,
    fecha_ultimo_mantenimiento: string,
    frecuencia_mhz: string,
    notas: string,
    tipo_convenio: string)
  {
    /** `formData[f]` */
    function Get(f: Field): string {
      match f
      case Nombre => nombre
      case Tipo => tipo
      case Direccion => direccion
      case Latitud => latitud
      case Longitud => longitud
      case Estado => estado
      case AlcanceKm => alcance_km
      case FechaUltimoMantenimiento => fecha_ultimo_mantenimiento
      case FrecuenciaMhz => frecuencia_mhz
      case Notas => notas
      case TipoConvenio => tipo_convenio
    }

    /** `{ ...formData, [f]: v }`: only field `f` changes. */
    function With(f: Field, v: string): (r: FormData)
      ensures forall g :: r.Get(g) == if g == f then v else Get(g)
    {
      match f
      case Nombre => this.(nombre := v)
      case Tipo => this.(tipo := v)
      case Direccion => this.(direccion := v)
      case Latitud => this.(latitud := v)
      case Longitud => this.(longitud := v)
      case Estado => this.(estado := v)
      case AlcanceKm => this.(alcance_km := v)
      case FechaUltimoMantenimiento => this.(fecha_ultimo_mantenimiento := v)
      case FrecuenciaMhz => this.(frecuencia_mhz := v)
      case Notas => this.(notas := v)
      case TipoConvenio => this.(tipo_convenio := v)
    }
  }

  const EmptyForm: FormData := FormData("", "", "", "", "", "", "", "", "", "", "")

  // ------------------------------------------------------- initial-data mapping

  /** The text a tower shows in field `f`: strings as they are, numbers through `toString`. */
  function TowerText(t: Tower, f: Field, render: real -> string): Option<string> {
    match f
    case Nombre => t.nombre
    case Tipo => t.tipo
    case Direccion => t.direccion
    case Latitud => if t.latitud.Some? then Some(render(t.latitud.value)) else None
    case Longitud => if t.longitud.Some? then Some(render(t.longitud.value)) else None
    case Estado => t.estado
    case AlcanceKm => if t.alcance_km.Some? then Some(render(t.alcance_km.value)) else None
    case FechaUltimoMantenimiento => t.fecha_ultimo_mantenimiento
    case FrecuenciaMhz => t.frecuencia_mhz
    case Notas => t.notas
    case TipoConvenio => t.tipo_convenio
  }

  /**
   * The form contents set when the form opens: the edited tower's values
   * with `|| ''` for anything missing, or all-empty for a new tower.
   */
  function InitialForm(initialData: Option<Tower>, render: real -> string): (r: FormData)
    ensures initialData.None? ==> forall f :: r.Get(f) == ""
    ensures initialData.Some? ==>
              forall f :: r.Get(f) == TowerText(initialData.value, f, render).GetOr("")
  {
    match initialData
    case None => EmptyForm
    case Some(t) =>
      FormData(
        nombre := t.nombre.GetOr(""),
        tipo := t.tipo.GetOr(""),
        direccion := t.direccion.GetOr(""),
        latitud := if t.latitud.Some? then render(t.latitud.value) else "",
        longitud := if t.longitud.Some? then render(t.longitud.value) else "",
        estado := t.estado.GetOr(""),
        alcance_km := if t.alcance_km.Some? then render(t.alcance_km.value) else "",
        fecha_ultimo_mantenimiento := t.fecha_ultimo_mantenimiento.GetOr(""),
        frecuencia_mhz := t.frecuencia_mhz.GetOr(""),
        notas := t.notas.GetOr(""),
        tipo_convenio := t.tipo_convenio.GetOr(""))
  }

  // ------------------------------------------------------------------ validator

  /**
   * The values the `errors` object holds: the eleven messages `validateForm`
   * writes, and `Cleared`, the `''` that `handleChange` writes over a shown
   * message.
   */
  datatype ErrorText =
    | NombreRequerido | TipoRequerido | DireccionRequerida | LatitudRequerida
    | LongitudRequerida | EstadoRequerido | AlcanceRequerido | ConvenioRequerido
    | LatitudFueraDeRango | LongitudFueraDeRango | AlcanceNoPositivo
    | Cleared
  {
    /** The text shown under the field. */
    function Message(): string {
      match this
      case NombreRequerido => "Nombre es requerido"
      case TipoRequerido => "Tipo es requerido"
      case DireccionRequerida => "Dirección es requerida"
      case LatitudRequerida => "Latitud es requerida"
      case LongitudRequerida => "Longitud es requerida"
      case EstadoRequerido => "Estado es requerido"
      case AlcanceRequerido => "Alcance es requerido"
      case ConvenioRequerido => "Tipo de convenio es requerido"
      case LatitudFueraDeRango => "Latitud debe estar entre -90 y 90"
      case LongitudFueraDeRango => "Longitud debe estar entre -180 y 180"
      case AlcanceNoPositivo => "Alcance debe ser mayor que 0"
      case Cleared => ""
    }

    /** A stored error is truthy (shown) exactly when it is not the cleared `''`. */
    predicate Shown() {
      Message() != ""
    }
  }

  /** A parsed number that is not `NaN` and lies in `[lo, hi]`. */
  predicate InRange(x: Option<real>, lo: real, hi: real) {
    x.Some? && lo <= x.value <= hi
  }

  /** A parsed number that is not `NaN` and is strictly positive. */
  predicate Positive(x: Option<real>) {
    x.Some? && x.value > 0.0
  }

  /**
   * The required check of each field (`!formData[f]`, or `!formData[f].trim()`
   * for the two free-text fields). The select fields are checked for
   * emptiness only, never for membership in their option lists, and the
   * three optional fields have no check.
   */
  predicate Missing(form: FormData, f: Field) {
    match f
    case Nombre => IsBlank(form.nombre)
    case Tipo => form.tipo == ""
    case Direccion => IsBlank(form.direccion)
    case Latitud => form.latitud == ""
    case Longitud => form.longitud == ""
    case Estado => form.estado == ""
    case AlcanceKm => form.alcance_km == ""
    case TipoConvenio => form.tipo_convenio == ""
    case FechaUltimoMantenimiento => false
    case FrecuenciaMhz => false
    case Notas => false
  }

  function RequiredMessage(f: Field): ErrorText {
    match f
    case Nombre => NombreRequerido
    case Tipo => TipoRequerido
    case Direccion => DireccionRequerida
    case Latitud => LatitudRequerida
    case Longitud => LongitudRequerida
    case Estado => EstadoRequerido
    case AlcanceKm => AlcanceRequerido
    case TipoConvenio => ConvenioRequerido
    case FechaUltimoMantenimiento => Cleared
    case FrecuenciaMhz => Cleared
    case Notas => Cleared
  }

  /** The range check of the three numeric fields: `NaN` or outside the bounds. */
  predicate OutOfRange(form: FormData, parseFloat: string -> Option<real>, f: Field) {
    match f
    case Latitud => !InRange(parseFloat(form.latitud), -90.0, 90.0)
    case Longitud => !InRange(parseFloat(form.longitud), -180.0, 180.0)
    case AlcanceKm => !Positive(parseFloat(form.alcance_km))
    case _ => false
  }

  function RangeMessage(f: Field): ErrorText {
    match f
    case Latitud => LatitudFueraDeRango
    case Longitud => LongitudFueraDeRango
    case AlcanceKm => AlcanceNoPositivo
    case _ => Cleared
  }

  /** A field is rejected when either of its checks fails. */
  predicate FieldFails(form: FormData, parseFloat: string -> Option<real>, f: Field) {
    Missing(form, f) || OutOfRange(form, parseFloat, f)
  }

  /**
   * The message a failing field ends up with. The range message is written
   * after the required message, so it wins whenever the range check fails.
   */
  function ErrorMessage(form: FormData, parseFloat: string -> Option<real>, f: Field): ErrorText {
    if OutOfRange(form, parseFloat, f) then RangeMessage(f) else RequiredMessage(f)
  }

  predicate FormValid(form: FormData, parseFloat: string -> Option<real>) {
    forall f :: !FieldFails(form, parseFloat, f)
  }

  /** Every field, for building the error map. */
  const AllFields: set<Field> :=
    {Nombre, Tipo, Direccion, Latitud, Longitud, Estado, AlcanceKm,
     FechaUltimoMantenimiento, FrecuenciaMhz, Notas, TipoConvenio}

  lemma AllFieldsComplete(f: Field)
    ensures f in AllFields
  {
  }

  /**
   * The `newErrors` object while `validateForm` fills it: one slot per
   * field, `None` while the key is absent. The three optional fields never
   * receive a key, so they have no slot.
   */
  datatype ErrorSlots = ErrorSlots(
    nombre: Option<ErrorText>,
    tipo: Option<ErrorText>,
    direccion: Option<ErrorText>,
    latitud: Option<ErrorText>,
    longitud: Option<ErrorText>,
    estado: Option<ErrorText>,
    alcance_km: Option<ErrorText>,
    tipo_convenio: Option<ErrorText>)
  {
    function Get(f: Field): Option<ErrorText> {
      match f
      case Nombre => nombre
      case Tipo => tipo
      case Direccion => direccion
      case Latitud => latitud
      case Longitud => longitud
      case Estado => estado
      case AlcanceKm => alcance_km
      case TipoConvenio => tipo_convenio
      case FechaUltimoMantenimiento => None
      case FrecuenciaMhz => None
      case Notas => None
    }

    /** The object as a key/value map: the keys are the filled slots. */
    function ToMap(): (m: map<Field, ErrorText>)
      ensures forall f :: f in m <==> Get(f).Some?
      ensures forall f :: f in m ==> m[f] == Get(f).value
    {
      var m := map f | f in AllFields && Get(f).Some? :: Get(f).value;
      assert forall f :: f in AllFields by {
        forall f ensures f in AllFields { AllFieldsComplete(f); }
      }
      m
    }
  }

  /**
   * The first block of `validateForm`: the required checks on a fresh
   * `newErrors`, each setting its field's key exactly when its check fails.
   */
  method RequiredChecks(form: FormData) returns (slots: ErrorSlots)
    ensures forall f :: slots.Get(f) == if Missing(form, f) then Some(RequiredMessage(f)) else None
  {
    var nombre := if IsBlank(form.nombre) then Some(NombreRequerido) else None;
    var tipo := if form.tipo == "" then Some(TipoRequerido) else None;
    var direccion := if IsBlank(form.direccion) then Some(DireccionRequerida) else None;
    var latitud := if form.latitud == "" then Some(LatitudRequerida) else None;
    var longitud := if form.longitud == "" then Some(LongitudRequerida) else None;
    var estado := if form.estado == "" then Some(EstadoRequerido) else None;
    var alcance := if form.alcance_km == "" then Some(AlcanceRequerido) else None;
    var convenio := if form.tipo_convenio == "" then Some(ConvenioRequerido) else None;

    slots := ErrorSlots(nombre, tipo, direccion, latitud, longitud, estado, alcance, convenio);
    forall f ensures slots.Get(f) == if Missing(form, f) then Some(RequiredMessage(f)) else None {
      match f
      case Nombre =>
      case Tipo =>
      case Direccion =>
      case Latitud =>
      case Longitud =>
      case Estado =>
      case AlcanceKm =>
      case TipoConvenio =>
      case FechaUltimoMantenimiento =>
      case FrecuenciaMhz =>
      case Notas =>
    }
  }

  /**
   * The coordinate and coverage blocks of `validateForm`: a failing range
   * check overwrites whatever the field held; every other slot is kept.
   */
  method RangeChecks(form: FormData, parseFloat: string -> Option<real>, slots0: ErrorSlots)
    returns (slots: ErrorSlots)
    ensures forall f :: slots.Get(f) == if OutOfRange(form, parseFloat, f) then Some(RangeMessage(f)) else slots0.Get(f)
  {
    var latitud, longitud, alcance := slots0.latitud, slots0.longitud, slots0.alcance_km;

    var lat := parseFloat(form.latitud);
    var lng := parseFloat(form.longitud);

    if lat.None? || lat.value < -90.0 || lat.value > 90.0 {
      latitud := Some(LatitudFueraDeRango);
    }
    if lng.None? || lng.value < -180.0 || lng.value > 180.0 {
      longitud := Some(LongitudFueraDeRango);
    }

    var alcanceKm := parseFloat(form.alcance_km);
    if alcanceKm.None? || alcanceKm.value <= 0.0 {
      alcance := Some(AlcanceNoPositivo);
    }

    slots := slots0.(latitud := latitud, longitud := longitud, alcance_km := alcance);
    forall f ensures slots.Get(f) == if OutOfRange(form, parseFloat, f) then Some(RangeMessage(f)) else slots0.Get(f) {
      match f
      case Nombre =>
      case Tipo =>
      case Direccion =>
      case Latitud =>
      case Longitud =>
      case Estado =>
      case AlcanceKm =>
      case TipoConvenio =>
      case FechaUltimoMantenimiento =>
      case FrecuenciaMhz =>
      case Notas =>
    }
  }

  /**
   * `validateForm`: runs both blocks over one `newErrors` object and reports
   * whether it stayed empty. The keys are exactly the failing fields, each
   * with its final message.
   */
  method ValidateForm(form: FormData, parseFloat: string -> Option<real>)
    returns (errors: map<Field, ErrorText>, ok: bool)
    ensures forall f :: f in errors <==> FieldFails(form, parseFloat, f)
    ensures forall f :: f in errors ==> errors[f] == ErrorMessage(form, parseFloat, f)
    ensures ok <==> errors == map[]
    ensures ok <==> FormValid(form, parseFloat)
  {
    var slots := RequiredChecks(form);
    slots := RangeChecks(form, parseFloat, slots);
    errors := slots.ToMap();
    ok := |errors| == 0;
    if !ok {
      var f :| f in errors;
      assert FieldFails(form, parseFloat, f);
    }
  }

  /**
   * With `parseFloat("")` being `NaN`, each numeric field fails exactly when
   * its range check fails, and a failing one always carries the range
   * message: the "es requerida/o" message of these three never survives.
   */
  lemma NumericFieldRules(form: FormData, parseFloat: string -> Option<real>)
    requires parseFloat("") == None
    ensures FieldFails(form, parseFloat, Latitud) <==> !InRange(parseFloat(form.latitud), -90.0, 90.0)
    ensures FieldFails(form, parseFloat, Longitud) <==> !InRange(parseFloat(form.longitud), -180.0, 180.0)
    ensures FieldFails(form, parseFloat, AlcanceKm) <==> !Positive(parseFloat(form.alcance_km))
    ensures FieldFails(form, parseFloat, Latitud) ==> ErrorMessage(form, parseFloat, Latitud) == LatitudFueraDeRango
    ensures FieldFails(form, parseFloat, Longitud) ==> ErrorMessage(form, parseFloat, Longitud) == LongitudFueraDeRango
    ensures FieldFails(form, parseFloat, AlcanceKm) ==> ErrorMessage(form, parseFloat, AlcanceKm) == AlcanceNoPositivo
  {
    if form.latitud == "" { assert parseFloat(form.latitud) == None; }
    if form.longitud == "" { assert parseFloat(form.longitud) == None; }
    if form.alcance_km == "" { assert parseFloat(form.alcance_km) == None; }
  }

  /** `nombre` and `direccion` fail exactly when they hold nothing but white space. */
  lemma BlankTextRule(form: FormData, parseFloat: string -> Option<real>)
    ensures FieldFails(form, parseFloat, Nombre) <==> AllWhitespace(form.nombre)
    ensures FieldFails(form, parseFloat, Direccion) <==> AllWhitespace(form.direccion)
  {
    TrimEmptyIff(form.nombre);
    TrimEmptyIff(form.direccion);
  }

  // -------------------------------------------------------------------- payload

  /** What `onSubmit` receives: numbers parsed, empty optionals turned into `null`. */
  datatype Payload = Payload(
    nombre: string,
    tipo: string,
    direccion: string,
    latitud: real,
    longitud: real,
    estado: string,
    alcance_km: real,
    fecha_ultimo_mantenimiento: Option<string>,
    frecuencia_mhz: Option<string>,
    notas: Option<string>,
    tipo_convenio: string)

  /** `s || null` on a string. */
  function NullIfEmpty(s: string): (r: Option<string>)
    ensures r.None? <==> s == ""
    ensures r.Some? ==> r.value == s
  {
    if s == "" then None else Some(s)
  }

  /** What a valid form guarantees field by field. */
  lemma ValidFormFacts(form: FormData, parseFloat: string -> Option<real>)
    requires FormValid(form, parseFloat)
    ensures !AllWhitespace(form.nombre) && !AllWhitespace(form.direccion)
    ensures form.tipo != "" && form.estado != "" && form.tipo_convenio != ""
    ensures InRange(parseFloat(form.latitud), -90.0, 90.0) && InRange(parseFloat(form.longitud), -180.0, 180.0)
    ensures Positive(parseFloat(form.alcance_km))
  {
    assert !FieldFails(form, parseFloat, Nombre) && !FieldFails(form, parseFloat, Direccion);
    assert !FieldFails(form, parseFloat, Tipo) && !FieldFails(form, parseFloat, Estado);
    assert !FieldFails(form, parseFloat, TipoConvenio);
    assert !FieldFails(form, parseFloat, Latitud) && !FieldFails(form, parseFloat, Longitud);
    assert !FieldFails(form, parseFloat, AlcanceKm);
    TrimEmptyIff(form.nombre);
    TrimEmptyIff(form.direccion);
  }

  /**
   * The `submitData` object, built only once the form is valid. Text fields
   * are copied untrimmed; the parsed numbers carry the range guarantees the
   * validator established.
   */
  function SubmitPayload(form: FormData, parseFloat: string -> Option<real>): (p: Payload)
    requires FormValid(form, parseFloat)
    ensures p.nombre == form.nombre && !AllWhitespace(p.nombre)
    ensures p.direccion == form.direccion && !AllWhitespace(p.direccion)
    ensures p.tipo == form.tipo && p.tipo != ""
    ensures p.estado == form.estado && p.estado != ""
    ensures p.tipo_convenio == form.tipo_convenio && p.tipo_convenio != ""
    ensures parseFloat(form.latitud) == Some(p.latitud) && -90.0 <= p.latitud <= 90.0
    ensures parseFloat(form.longitud) == Some(p.longitud) && -180.0 <= p.longitud <= 180.0
    ensures parseFloat(form.alcance_km) == Some(p.alcance_km) && p.alcance_km > 0.0
    ensures p.fecha_ultimo_mantenimiento == NullIfEmpty(form.fecha_ultimo_mantenimiento)
    ensures p.frecuencia_mhz == NullIfEmpty(form.frecuencia_mhz)
    ensures p.notas == NullIfEmpty(form.notas)
  {
    ValidFormFacts(form, parseFloat);
    Payload(
      nombre := form.nombre,
      tipo := form.tipo,
      direccion := form.direccion,
      latitud := parseFloat(form.latitud).value,
      longitud := parseFloat(form.longitud).value,
      estado := form.estado,
      alcance_km := parseFloat(form.alcance_km).value,
      fecha_ultimo_mantenimiento := NullIfEmpty(form.fecha_ultimo_mantenimiento),
      frecuencia_mhz := NullIfEmpty(form.frecuencia_mhz),
      notas := NullIfEmpty(form.notas),
      tipo_convenio := form.tipo_convenio)
  }

  // ---------------------------------------------------- towers the form accepts

  /** A stored tower meeting every rule the form enforces. */
  predicate ConformingTower(t: Tower) {
    && t.nombre.Some? && !AllWhitespace(t.nombre.value)
    && t.direccion.Some? && !AllWhitespace(t.direccion.value)
    && t.tipo.Some? && t.tipo.value != ""
    && t.estado.Some? && t.estado.value != ""
    && t.tipo_convenio.Some? && t.tipo_convenio.value != ""
    && t.latitud.Some? && -90.0 <= t.latitud.value <= 90.0
    && t.longitud.Some? && -180.0 <= t.longitud.value <= 180.0
    && t.alcance_km.Some? && t.alcance_km.value > 0.0
  }

  /** `parseFloat(x.toString())` gives `x` back for the three numbers of the tower. */
  predicate NumbersReparse(t: Tower, parseFloat: string -> Option<real>, render: real -> string) {
    && (t.latitud.Some? ==> parseFloat(render(t.latitud.value)) == t.latitud)
    && (t.longitud.Some? ==> parseFloat(render(t.longitud.value)) == t.longitud)
    && (t.alcance_km.Some? ==> parseFloat(render(t.alcance_km.value)) == t.alcance_km)
  }

  /**
   * Opening the form on a conforming tower and submitting it untouched passes
   * validation: the form never rejects data it was filled with.
   */
  lemma ConformingTowerValidates(t: Tower, parseFloat: string -> Option<real>, render: real -> string)
    requires ConformingTower(t) && NumbersReparse(t, parseFloat, render)
    requires parseFloat("") == None
    ensures FormValid(InitialForm(Some(t), render), parseFloat)
  {
    var form := InitialForm(Some(t), render);
    forall f ensures !FieldFails(form, parseFloat, f) {
      match f
      case Nombre => TrimEmptyIff(form.nombre);
      case Direccion => TrimEmptyIff(form.direccion);
      case Latitud | Longitud | AlcanceKm => NumericFieldRules(form, parseFloat);
      case _ =>
    }
  }

  // ------------------------------------------------------------- component state

  /** The `formData` and `errors` state of the form component. */
  class FormState {
    var formData: FormData
    var errors: map<Field, ErrorText>

    constructor ()
      ensures formData == EmptyForm && errors == map[]
    {
      formData := EmptyForm;
      errors := map[];
    }

    /** The effect run when the form opens or `initialData` changes. */
    method Open(initialData: Option<Tower>, render: real -> string)
      modifies this
      ensures formData == InitialForm(initialData, render)
      ensures errors == map[]
    {
      formData := InitialForm(initialData, render);
      errors := map[];
    }

    /**
     * `handleChange`: sets one field; a truthy error on that field is blanked
     * (its key stays), every other error is left as it was.
     */
    method HandleChange(f: Field, v: string)
      modifies this
      ensures formData == old(formData).With(f, v)
      ensures forall g :: g != f ==> (g in errors <==> g in old(errors))
      ensures forall g :: g != f && g in errors ==> errors[g] == old(errors)[g]
      ensures f in errors <==> f in old(errors)
      ensures f in errors ==> errors[f] == Cleared || errors[f] == old(errors)[f] == Cleared
    {
      formData := formData.With(f, v);
      if f in errors && errors[f].Shown() {
        errors := errors[f := Cleared];
      }
    }

    /**
     * `handleSubmit`: validates, records the errors, and hands the payload to
     * `onSubmit` only when no field fails.
     */
    method HandleSubmit(parseFloat: string -> Option<real>) returns (submitted: Option<Payload>)
      modifies this
      ensures formData == old(formData)
      ensures forall f :: f in errors <==> FieldFails(formData, parseFloat, f)
      ensures forall f :: f in errors ==> errors[f] == ErrorMessage(formData, parseFloat, f)
      ensures submitted.Some? <==> FormValid(formData, parseFloat)
      ensures submitted.Some? ==> submitted.value == SubmitPayload(formData, parseFloat)
    {
      var newErrors, ok := ValidateForm(formData, parseFloat);
      errors := newErrors;
      if !ok {
        return None;
      }
      submitted := Some(SubmitPayload(formData, parseFloat));
    }
  }
}
