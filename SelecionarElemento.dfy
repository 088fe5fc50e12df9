/**
 * src/components/Mapa/MapaUtils/selecionarElementoHelper.ts: the viewport the
 * map moves to when an element is selected, and the `selecionarElementoFoco`
 * action that carries it.
 *
 * The helper takes an untyped document and looks for scenes in its top-level
 * `cenas` property; that property is the parameter `topCenas` here (None when
 * the object has none). The centre of a bounds value follows Leaflet's
 * `latLngBounds(...).getCenter()`; the bounds of a GeoJSON layer built from an
 * element is the parameter `Geo`.
 */
module SelecionarElemento {
  import opened JsCore
  import opened MapaTypes

  /**
   * Leaflet's GeoJSON layer built from an element: the north-east and
   * south-west corners of its bounds, or None when building the layer throws
   * or its bounds are absent or invalid.
   */
  datatype Geo = Geo(geoJsonBounds: Elemento -> Option<(LatLng, LatLng)>)

  // ---------------------------------------------------------------------------
  // Leaflet: the centre of `latLngBounds(b._northEast, b._southWest)`

  /** `b[k]` for a corner name `k`: the corners of a Leaflet bounds, a property of a plain object, undefined on anything else. */
  function Canto(b: Val, k: string): Val {
    match b
    case Box(ne, sw) => if k == "_northEast" then Pos(ne) else if k == "_southWest" then Pos(sw) else Undefined
    case Record(f) => Get(f, k)
    case _ => Undefined
  }

  /**
   * The points `extend(v)` adds to a bounds: a LatLng, both corners of a
   * bounds, a `{ lat, lng }` object or a `[lat, lng]` / `[lat, lng, alt]`
   * array (either throws when a coordinate is not a number); anything else
   * adds nothing.
   */
  function PontosDoCanto(v: Val): (r: Result<seq<LatLng>>)
    ensures r.Ok? ==> |r.value| <= 2
  {
    match v
    case Pos(p) => Ok([p])
    case Box(ne, sw) => Ok([sw, ne])
    case Record(f) =>
      if "lat" !in f then Ok([])
      else if f["lat"].Num? && Get(f, "lng").Num? then Ok([LatLng(f["lat"].n, f["lng"].n)])
      else Err(Error("Invalid LatLng object"))
    case Shape(c) =>
      if c.Nested? && (|c.items| == 2 || |c.items| == 3) && c.items[0].Scalar? then
        if c.items[1].Scalar? then Ok([LatLng(c.items[0].x, c.items[1].x)])
        else Err(Error("Invalid LatLng object"))
      else Ok([])
    case _ => Ok([])
  }

  function Menor(xs: seq<real>): (m: real)
    requires xs != []
    ensures m in xs && forall i :: 0 <= i < |xs| ==> m <= xs[i]
  {
    if |xs| == 1 then xs[0]
    else var r := Menor(xs[1..]); if xs[0] <= r then xs[0] else r
  }

  function Maior(xs: seq<real>): (m: real)
    requires xs != []
    ensures m in xs && forall i :: 0 <= i < |xs| ==> xs[i] <= m
  {
    if |xs| == 1 then xs[0]
    else var r := Maior(xs[1..]); if xs[0] >= r then xs[0] else r
  }

  /** The least and the greatest of two numbers add up to their sum. */
  lemma ExtremosDeDois(a: real, b: real)
    ensures Menor([a, b]) + Maior([a, b]) == a + b
  {
    assert [a, b][1..] == [b];
  }

  /** The midpoint of two corners: `getCenter()` of the bounds they span. */
  function Meio(a: LatLng, b: LatLng): LatLng {
    LatLng((a.lat + b.lat) / 2.0, (a.lng + b.lng) / 2.0)
  }

  /** `getCenter()` of the bounds that the points extend: the middle of their box. */
  function CentroDosPontos(pts: seq<LatLng>): LatLng
    requires pts != []
  {
    var lats := seq(|pts|, i requires 0 <= i < |pts| => pts[i].lat);
    var lngs := seq(|pts|, i requires 0 <= i < |pts| => pts[i].lng);
    LatLng((Menor(lats) + Maior(lats)) / 2.0, (Menor(lngs) + Maior(lngs)) / 2.0)
  }

  /** The box around two points is centred on their midpoint. */
  lemma CentroDeDois(a: LatLng, b: LatLng)
    ensures CentroDosPontos([a, b]) == Meio(a, b)
  {
    var pts := [a, b];
    assert seq(|pts|, i requires 0 <= i < |pts| => pts[i].lat) == [a.lat, b.lat];
    assert seq(|pts|, i requires 0 <= i < |pts| => pts[i].lng) == [a.lng, b.lng];
    ExtremosDeDois(a.lat, b.lat);
    ExtremosDeDois(a.lng, b.lng);
  }

  /**
   * `Leaflet.latLngBounds(b._northEast, b._southWest).getCenter()`. A first
   * corner that is itself a bounds is taken as the bounds, the second ignored. A missing
   * first or second corner, or corners that add no point, leave the bounds
   * empty, and `getCenter` then reads a corner of nothing and throws.
   * Otherwise the centre of the box around the points.
   */
  function Centro(b: Val): (r: Result<Val>)
    ensures r.Ok? ==> Truthy(Canto(b, "_northEast")) && r.value.Pos?
    ensures r.Ok? && !Canto(b, "_northEast").Box? ==> Truthy(Canto(b, "_southWest"))
    ensures Canto(b, "_northEast").Box? ==> r == Ok(Pos(Meio(Canto(b, "_northEast").northEast, Canto(b, "_northEast").southWest)))
  {
    var c1 := Canto(b, "_northEast");
    var c2 := Canto(b, "_southWest");
    if c1.Box? then Ok(Pos(Meio(c1.northEast, c1.southWest)))
    else if !Truthy(c1) || !Truthy(c2) then Err(TypeError("Cannot read properties of undefined (reading 'lat')"))
    else
      match PontosDoCanto(c1)
      case Err(e) => Err(e)
      case Ok(p1) =>
        match PontosDoCanto(c2)
        case Err(e) => Err(e)
        case Ok(p2) =>
          var pts := p1 + p2;
          if pts == [] then Err(TypeError("Cannot read properties of undefined (reading 'lat')"))
          else Ok(Pos(CentroDosPontos(pts)))
  }

  /** A Leaflet bounds is centred on the midpoint of its two corners. */
  lemma CentroDaCaixa(ne: LatLng, sw: LatLng)
    ensures Centro(Box(ne, sw)) == Ok(Pos(Meio(ne, sw)))
  {
    assert "_southWest" != "_northEast" by {
      assert "_southWest"[1] != "_northEast"[1];
    }
    assert Canto(Box(ne, sw), "_northEast") == Pos(ne) && Canto(Box(ne, sw), "_southWest") == Pos(sw);
    assert PontosDoCanto(Pos(ne)) == Ok([ne]) && PontosDoCanto(Pos(sw)) == Ok([sw]);
    assert [ne] + [sw] == [ne, sw];
    CentroDeDois(ne, sw);
  }

  /**
   * An array used as bounds, as the Marker case stores its coordinates, has
   * no corners: taking its centre throws.
   */
  lemma CentroDeArrayFalha(c: Coords)
    ensures Centro(Shape(c)).Err?
  {
  }

  /** `elemento.cenaInicio >= c.cenaInicio && elemento.cenaInicio <= c.cenaFim`, on raw values. */
  predicate NaCena(el: Elemento, x: Cena) {
    RawLe(CenaInicio(x), el.cenaInicio) && RawLe(el.cenaInicio, CenaFim(x))
  }

  /** The scene whose bounds and zoom the helper uses: the first that holds the element's start, looked up only when that start is truthy. */
  function CenaDoElemento(el: Elemento, topCenas: Option<seq<Cena>>): (r: Option<Cena>)
    ensures r.Some? ==> Truthy(el.cenaInicio) && topCenas.Some? && r.value in topCenas.value && NaCena(el, r.value)
    ensures r.Some? ==> exists k :: 0 <= k < |topCenas.value| && r.value == topCenas.value[k]
                                   && forall j :: 0 <= j < k ==> !NaCena(el, topCenas.value[j])
    ensures (!Truthy(el.cenaInicio) || topCenas.None?) ==> r.None?
    ensures Truthy(el.cenaInicio) && topCenas.Some? && (exists k :: 0 <= k < |topCenas.value| && NaCena(el, topCenas.value[k])) ==> r.Some?
  {
    if Truthy(el.cenaInicio) && topCenas.Some? then
      var k := Find(topCenas.value, (x: Cena) => NaCena(el, x));
      if k.Some? then Some(topCenas.value[k.value]) else None
    else None
  }

  /** `cenaBounds`: the scene's bounds, or null without a scene. */
  function CenaBounds(el: Elemento, topCenas: Option<seq<Cena>>): Val {
    var c := CenaDoElemento(el, topCenas);
    if c.Some? then Get(c.value.props, "bounds") else Null
  }

  /** `cenaZoom`: the scene's zoom, or null without a scene. */
  function CenaZoom(el: Elemento, topCenas: Option<seq<Cena>>): Val {
    var c := CenaDoElemento(el, topCenas);
    if c.Some? then Get(c.value.props, "zoom") else Null
  }

  /** `new Leaflet.LatLng(coordinates[0], coordinates[1])`, which throws unless both are numbers. */
  function LatLngOf(coords: Coords): (r: Result<Val>)
    ensures r.Ok? <==> coords.Nested? && |coords.items| >= 2 && coords.items[0].Scalar? && coords.items[1].Scalar?
    ensures r.Ok? ==> r.value == Pos(LatLng(coords.items[0].x, coords.items[1].x))
  {
    if coords.Nested? && |coords.items| >= 2 && coords.items[0].Scalar? && coords.items[1].Scalar? then
      Ok(Pos(LatLng(coords.items[0].x, coords.items[1].x)))
    else Err(Error("Invalid LatLng object"))
  }

  predicate IsMarker(el: Elemento) {
    el.dataRef == "Marker"
  }

  /** `geometry.coordinates` is truthy: present, and not the number 0. */
  predicate CoordenadasVerdadeiras(g: Geometry) {
    g.coordinates.Some? && g.coordinates.value != Scalar(0.0)
  }

  /** A Marker with coordinates is placed by them; reading them throws when the Marker has no geometry. */
  predicate MarkerComCoordenadas(el: Elemento) {
    IsMarker(el) && el.geometry.Some? && CoordenadasVerdadeiras(el.geometry.value)
  }

  /**
   * When building the viewport throws: a Marker without geometry; a Marker's
   * centre (the scene's bounds, else its coordinates) that cannot be taken;
   * for other elements, the centre of the scene's bounds, else of the
   * element's own bounds, when that cannot be taken. The GeoJSON fallback runs
   * inside a `try` and never throws.
   */
  predicate Falha(el: Elemento, topCenas: Option<seq<Cena>>) {
    var sb := CenaBounds(el, topCenas);
    if IsMarker(el) && el.geometry.None? then true
    else if MarkerComCoordenadas(el) then
      if Truthy(sb) then Centro(sb).Err? else LatLngOf(el.geometry.value.coordinates.value).Err?
    else if Truthy(sb) then Centro(sb).Err?
    else Truthy(el.bounds) && Centro(el.bounds).Err?
  }

  /**
   * `montarMapContextParaElemento(elemento, mapaContextAtual)`: the document
   * with only its viewport changed, after this order of preference. No element:
   * the document as it is. A Marker with coordinates: the scene's bounds (or the
   * coordinates) and the scene's zoom, else the element's, else the document's.
   * Any other element: the scene's bounds, else the element's bounds, else the
   * bounds of its geometry, else the document as it is.
   */
  function MontarMapContext(elemento: Option<Elemento>, ctx: Ctx, topCenas: Option<seq<Cena>>, geo: Geo): (r: Result<Ctx>)
    ensures elemento.None? ==> r == Ok(ctx)
    ensures r.Ok? ==> OnlyProps(ctx, r.value, Viewport)
    ensures r.Err? <==> elemento.Some? && Falha(elemento.value, topCenas)
    ensures r.Ok? && elemento.Some? && MarkerComCoordenadas(elemento.value) ==>
              var el := elemento.value;
              var sb := CenaBounds(el, topCenas);
              && Get(r.value.props, "bounds") == Or(sb, Shape(el.geometry.value.coordinates.value))
              && Get(r.value.props, "center") == (if Truthy(sb) then Centro(sb).value else LatLngOf(el.geometry.value.coordinates.value).value)
              && Get(r.value.props, "zoom") == Or(Or(CenaZoom(el, topCenas), el.zoom), Get(ctx.props, "zoom"))
    ensures r.Ok? && elemento.Some? && !MarkerComCoordenadas(elemento.value) ==>
              var el := elemento.value;
              var sb := CenaBounds(el, topCenas);
              var gb := geo.geoJsonBounds(el);
              && (Truthy(sb) ==> View(r.value.props) == (Centro(sb).value, Or(Or(CenaZoom(el, topCenas), el.zoom), Get(ctx.props, "zoom")), sb))
              && (!Truthy(sb) && Truthy(el.bounds) ==> View(r.value.props) == (Centro(el.bounds).value, Or(el.zoom, Get(ctx.props, "zoom")), el.bounds))
              && (!Truthy(sb) && !Truthy(el.bounds) && el.geometry.Some? && gb.Some? ==>
                    View(r.value.props) == (Pos(Meio(gb.value.0, gb.value.1)), Or(el.zoom, Get(ctx.props, "zoom")), Box(gb.value.0, gb.value.1)))
              && (!Truthy(sb) && !Truthy(el.bounds) && (el.geometry.None? || gb.None?) ==> r.value == ctx)
  {
    if elemento.None? then Ok(ctx)
    else
      var el := elemento.value;
      var sb := CenaBounds(el, topCenas);
      var sz := CenaZoom(el, topCenas);
      if IsMarker(el) && el.geometry.None? then Err(TypeError("elemento.geometry is undefined"))
      else if IsMarker(el) && CoordenadasVerdadeiras(el.geometry.value) then
        var coords := el.geometry.value.coordinates.value;
        var center := if Truthy(sb) then Centro(sb) else LatLngOf(coords);
        if center.Err? then Err(center.error)
        else Ok(ctx.(props := SetView(ctx.props, (center.value, Or(Or(sz, el.zoom), Get(ctx.props, "zoom")), Or(sb, Shape(coords))))))
      else if Truthy(sb) then
        match Centro(sb)
        case Err(e) => Err(e)
        case Ok(center) => Ok(ctx.(props := SetView(ctx.props, (center, Or(Or(sz, el.zoom), Get(ctx.props, "zoom")), sb))))
      else if Truthy(el.bounds) then
        match Centro(el.bounds)
        case Err(e) => Err(e)
        case Ok(center) => Ok(ctx.(props := SetView(ctx.props, (center, Or(el.zoom, Get(ctx.props, "zoom")), el.bounds))))
      else if el.geometry.Some? && geo.geoJsonBounds(el).Some? then
        var (ne, sw) := geo.geoJsonBounds(el).value;
        Ok(ctx.(props := SetView(ctx.props, (Pos(Meio(ne, sw)), Or(el.zoom, Get(ctx.props, "zoom")), Box(ne, sw)))))
      else Ok(ctx)
  }

  /**
   * `montarDispatchSelecionarElemento(elemento, mapaContextAtual)`: a
   * `selecionarElementoFoco` action carrying the element, its start as `time`
   * exactly when that start is truthy, and the document `MontarMapContext`
   * builds; it throws when that does.
   */
  function MontarDispatch(elemento: Option<Elemento>, ctx: Ctx, topCenas: Option<seq<Cena>>, geo: Geo): (r: Result<Action>)
    ensures r.Ok? <==> MontarMapContext(elemento, ctx, topCenas, geo).Ok?
    ensures r.Err? ==> r.error == MontarMapContext(elemento, ctx, topCenas, geo).error
    ensures r.Ok? ==> && r.value.kind == "selecionarElementoFoco"
                      && r.value.elemento == elemento
                      && r.value.mapContext == Some(MontarMapContext(elemento, ctx, topCenas, geo).value)
                      && (r.value.time != Undefined <==> elemento.Some? && Truthy(elemento.value.cenaInicio))
                      && (r.value.time != Undefined ==> r.value.time == elemento.value.cenaInicio)
  {
    var time := if elemento.Some? && Truthy(elemento.value.cenaInicio) then elemento.value.cenaInicio else Undefined;
    match MontarMapContext(elemento, ctx, topCenas, geo)
    case Err(e) => Err(e)
    case Ok(mc) => Ok(ActionOf("selecionarElementoFoco").(elemento := elemento, time := time, mapContext := Some(mc)))
  }

  // ---------------------------------------------------------------------------
  // The callers: the document they pass has its scenes under `conteudo.cenas` only

  /**
   * The selection as the element list and the drawing layer make it: they pass
   * the store's document, which has no top-level `cenas`, so no scene is found.
   */
  function SelecionarComoEscrito(elemento: Option<Elemento>, ctx: Ctx, geo: Geo): Result<Action> {
    MontarDispatch(elemento, ctx, None, geo)
  }

  /** The selection as evidently intended: the scenes are the document's own. */
  function SelecionarCorrigido(elemento: Option<Elemento>, ctx: Ctx, geo: Geo): Result<Action> {
    MontarDispatch(elemento, ctx, Some(ctx.cenas), geo)
  }

  /**
   * As written, the scenes never matter: the result is the same as with an
   * empty scene list, and no scene bounds or zoom is ever read.
   */
  lemma AsWrittenIgnoresScenes(elemento: Option<Elemento>, ctx: Ctx, geo: Geo)
    ensures SelecionarComoEscrito(elemento, ctx, geo) == MontarDispatch(elemento, ctx, Some([]), geo)
    ensures elemento.Some? ==> CenaBounds(elemento.value, None) == Null && CenaZoom(elemento.value, None) == Null
  {
  }

  /**
   * With the document's own scenes, an element whose start falls inside a
   * scene that has bounds is shown with that scene's bounds and its centre.
   */
  lemma {:induction false} CorrectedUsesScene(el: Elemento, ctx: Ctx, geo: Geo, k: nat)
    requires Truthy(el.cenaInicio)
    requires k < |ctx.cenas| && NaCena(el, ctx.cenas[k])
    requires forall j :: 0 <= j < k ==> !NaCena(el, ctx.cenas[j])
    requires Truthy(Get(ctx.cenas[k].props, "bounds"))
    requires !IsMarker(el)
    ensures SelecionarCorrigido(Some(el), ctx, geo).Ok? <==> Centro(Get(ctx.cenas[k].props, "bounds")).Ok?
    ensures SelecionarCorrigido(Some(el), ctx, geo).Ok? ==>
              && Get(SelecionarCorrigido(Some(el), ctx, geo).value.mapContext.value.props, "bounds") == Get(ctx.cenas[k].props, "bounds")
              && Get(SelecionarCorrigido(Some(el), ctx, geo).value.mapContext.value.props, "center") == Centro(Get(ctx.cenas[k].props, "bounds")).value
  {
    var f := Find(ctx.cenas, (x: Cena) => NaCena(el, x));
    assert f.Some? && f.value == k;
    assert CenaBounds(el, Some(ctx.cenas)) == Get(ctx.cenas[k].props, "bounds");
  }

  /** A polygon element with bounds inside a scene with bounds. */
  const Quadra := Elemento("p1", "quadra", "Polygon", Time(30), Num(12.0), Box(LatLng(1.0, 1.0), LatLng(0.0, 0.0)), None)

  /** A document whose only scene spans 0 to 60 and carries its own bounds. */
  const ComUmaCena := Ctx(map[], map[],
    [Cena(map["cenaInicio" := Time(0), "cenaFim" := Time(60), "bounds" := Box(LatLng(9.0, 9.0), LatLng(5.0, 5.0))])],
    map[])

  /** As written, `Quadra` is focused on its own bounds. */
  lemma QuadraComoEscrito(geo: Geo)
    ensures SelecionarComoEscrito(Some(Quadra), ComUmaCena, geo).Ok?
    ensures Get(SelecionarComoEscrito(Some(Quadra), ComUmaCena, geo).value.mapContext.value.props, "bounds") == Quadra.bounds
  {
    assert IsMarker(Quadra) == false by {
      assert Quadra.dataRef[0] != "Marker"[0];
    }
    CentroDaCaixa(LatLng(1.0, 1.0), LatLng(0.0, 0.0));
    assert CenaBounds(Quadra, None) == Null;
    assert !Falha(Quadra, None);
  }

  /** As corrected, `Quadra` is focused on the bounds of its scene. */
  lemma QuadraCorrigido(geo: Geo)
    ensures SelecionarCorrigido(Some(Quadra), ComUmaCena, geo).Ok?
    ensures Get(SelecionarCorrigido(Some(Quadra), ComUmaCena, geo).value.mapContext.value.props, "bounds") == Box(LatLng(9.0, 9.0), LatLng(5.0, 5.0))
  {
    assert IsMarker(Quadra) == false by {
      assert Quadra.dataRef[0] != "Marker"[0];
    }
    assert NaCena(Quadra, ComUmaCena.cenas[0]);
    var sb := Get(ComUmaCena.cenas[0].props, "bounds");
    assert sb == Box(LatLng(9.0, 9.0), LatLng(5.0, 5.0));
    CentroDaCaixa(LatLng(9.0, 9.0), LatLng(5.0, 5.0));
    assert Centro(sb).Ok?;
    CorrectedUsesScene(Quadra, ComUmaCena, geo, 0);
    var r := SelecionarCorrigido(Some(Quadra), ComUmaCena, geo);
    assert r.Ok?;
    assert Get(r.value.mapContext.value.props, "bounds") == sb;
  }

  /**
   * An element inside a scene with bounds: as written, the view goes to the
   * element's own bounds; as intended, to the scene's.
   */
  lemma SceneBoundsIgnored(geo: Geo)
    ensures SelecionarComoEscrito(Some(Quadra), ComUmaCena, geo).Ok?
    ensures Get(SelecionarComoEscrito(Some(Quadra), ComUmaCena, geo).value.mapContext.value.props, "bounds") == Quadra.bounds
    ensures SelecionarCorrigido(Some(Quadra), ComUmaCena, geo).Ok?
    ensures Get(SelecionarCorrigido(Some(Quadra), ComUmaCena, geo).value.mapContext.value.props, "bounds") == Box(LatLng(9.0, 9.0), LatLng(5.0, 5.0))
    ensures Quadra.bounds != Box(LatLng(9.0, 9.0), LatLng(5.0, 5.0))
  {
    QuadraComoEscrito(geo);
    QuadraCorrigido(geo);
  }
}
