/**
 * The map document (`mapaContextSchema`), its scenes (`cenas`), its elements and
 * the actions the reducer receives (`actionContextChange`), after
 * src/components/Mapa/mapaContextTypes.ts.
 *
 * The source types properties as `any`, and several operations write a property
 * whose name arrives at run time (`{ ...ctx, [action.tipo]: action.valor }`).
 * The model therefore keeps the scalar properties of the document and of each
 * scene in a map from property name to an untyped value `Val`; a missing key
 * reads as `undefined`.
 */
module MapaTypes {
  import opened JsCore

  datatype LatLng = LatLng(lat: real, lng: real)

  /** A coordinate array as stored in a geometry: a number, or an array of such values. */
  datatype Coords = Scalar(x: real) | Nested(items: seq<Coords>)

  /**
   * An untyped JavaScript value as it occurs in the document. Timestamps are the
   * strings "yyyy-MM-DDTHH:mm:ss", written here as the instant they denote (in
   * seconds): for that fixed format the string order and the time order agree.
   * `Fn` is a function value and `Opaque` an object defined in code outside
   * this model (such as the tool descriptors of `elementos`).
   */
  datatype Val =
    | Undefined
    | Null
    | Bool(b: bool)
    | Num(n: real)
    | Str(s: string)
    | Time(t: int)
    | Pos(p: LatLng)
    | Box(northEast: LatLng, southWest: LatLng)
    | Shape(c: Coords)
    | Record(fields: map<string, Val>)
    | Fn(name: string)
    | Opaque(name: string)

  /** JavaScript truthiness (`NaN` is not modelled). */
  predicate Truthy(v: Val) {
    match v
    case Undefined => false
    case Null => false
    case Bool(b) => b
    case Num(n) => n != 0.0
    case Str(s) => s != ""
    case _ => true
  }

  /** `a || b`. */
  function Or(a: Val, b: Val): Val {
    if Truthy(a) then a else b
  }

  /** `a ?? b`. */
  function Coalesce(a: Val, b: Val): Val {
    if a.Undefined? || a.Null? then b else a
  }

  /** `obj[k]` on a property map: a missing key reads as undefined. */
  function Get(m: map<string, Val>, k: string): Val {
    if k in m then m[k] else Undefined
  }

  /** The instant `moment(v)` denotes, or None for an invalid moment. */
  function Moment(v: Val): Option<int> {
    if v.Time? then Some(v.t) else None
  }

  /**
   * `moment(a) <= moment(b)`: moments compare by their numeric value, and an
   * invalid moment is NaN, for which every comparison is false.
   */
  predicate MomentLe(a: Val, b: Val) {
    Moment(a).Some? && Moment(b).Some? && Moment(a).value <= Moment(b).value
  }

  /** `moment(a) < moment(b)`. */
  predicate MomentLt(a: Val, b: Val) {
    Moment(a).Some? && Moment(b).Some? && Moment(a).value < Moment(b).value
  }

  /** Lexicographic order on strings, as JavaScript's `<=` on two strings. */
  predicate StrLe(a: string, b: string) {
    a == [] || (b != [] && (a[0] < b[0] || (a[0] == b[0] && StrLe(a[1..], b[1..]))))
  }

  /**
   * `a <= b` on raw values: timestamps by time (the order of their strings),
   * strings lexicographically, numbers numerically; anything else is compared
   * as NaN, which makes the comparison false. A timestamp against another
   * string is false here, since the model keeps the instant and not its text.
   */
  predicate RawLe(a: Val, b: Val) {
    match (a, b)
    case (Time(x), Time(y)) => x <= y
    case (Str(x), Str(y)) => StrLe(x, y)
    case (Num(x), Num(y)) => x <= y
    case _ => false
  }

  /** A scene of the timeline: its properties (`id`, `cenaInicio`, `cenaFim`, `center`, `zoom`, `bounds`, ...). */
  datatype Cena = Cena(props: map<string, Val>)

  function CenaInicio(c: Cena): Val { Get(c.props, "cenaInicio") }
  function CenaFim(c: Cena): Val { Get(c.props, "cenaFim") }

  /** An element's `geometry`: its GeoJSON `type` and its `coordinates`, if any. */
  datatype Geometry = Geometry(kind: string, coordinates: Option<Coords>)

  /** An element of the map (marker, polygon, line, circle, image, ...), with the fields the core reads. */
  datatype Elemento = Elemento(
    id: string,
    nome: string,
    dataRef: string,
    cenaInicio: Val,
    zoom: Val,
    bounds: Val,
    geometry: Option<Geometry>)

  /**
   * The document: its scalar properties, its `timelineOptions`, its scenes
   * (`conteudo.cenas`) and its element groups (`conteudo.Marker`, `conteudo.Polygon`, ...).
   */
  datatype Ctx = Ctx(
    props: map<string, Val>,
    timelineOptions: map<string, Val>,
    cenas: seq<Cena>,
    grupos: map<string, seq<Elemento>>)

  /** What a Leaflet map reports through `getCenter()`, `getZoom()` and `getBounds()`. */
  datatype MapView = MapView(center: Val, zoom: Val, bounds: Val)

  /**
   * An action (`actionContextChange`). An absent optional field is None, or
   * Undefined for the untyped ones; `formik` is the form's `isValid` flag.
   * The fields only MapaFunctionHelpers reads (`group`, `ids`, `elementos`,
   * `nomeElemento`, `nomePropriedade`, `valorPropriedade`, `valorBooleano`,
   * `start`, `end`) are kept by name in `outros`.
   */
  datatype Action = Action(
    kind: string,
    tipo: Option<string>,
    valor: Val,
    time: Val,
    id: Val,
    arg: Val,
    indiceElemento: Option<int>,
    formik: Option<bool>,
    mapContext: Option<Ctx>,
    leaflet: Option<MapView>,
    elemento: Option<Elemento>,
    posicao: Val,
    outros: map<string, Val>)

  /** An action of the given type with every other field absent. */
  function ActionOf(kind: string): Action
  {
    Action(kind, None, Undefined, Undefined, Undefined, Undefined, None, None, None, None, None, Undefined, map[])
  }

  /** `r` differs from `c` at most in the scalar properties named in `keys`. */
  predicate OnlyProps(c: Ctx, r: Ctx, keys: set<string>) {
    && r.props - keys == c.props - keys
    && r.timelineOptions == c.timelineOptions
    && r.cenas == c.cenas
    && r.grupos == c.grupos
  }

  /** The viewport (`center`, `zoom`, `bounds`) of a property map. */
  function View(m: map<string, Val>): (Val, Val, Val) {
    (Get(m, "center"), Get(m, "zoom"), Get(m, "bounds"))
  }

  /** Assigns `center`, `zoom` and `bounds`, in that order. */
  function SetView(m: map<string, Val>, v: (Val, Val, Val)): (r: map<string, Val>)
    ensures View(r) == v
    ensures r - {"center", "zoom", "bounds"} == m - {"center", "zoom", "bounds"}
  {
    m["center" := v.0]["zoom" := v.1]["bounds" := v.2]
  }

  /** The properties that make up the viewport. */
  const Viewport: set<string> := {"center", "zoom", "bounds"}
}
