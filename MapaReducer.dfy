/**
 * `mapaReducer` (src/components/Mapa/context/MapaDispatchEvents.ts): the
 * document reducer.
 *
 * The first half states what each case RETURNS, on values. Several cases first
 * write into `oldMapaContext` and into the scene array it shares with every
 * shallow copy (`{ ...oldMapaContext }` copies the top level only), so for
 * those cases there are two functions: the state the old object is left in
 * (`...Mutacao`), and the returned copy built from it. The second half is the
 * same reducer over heap objects, with those writes done in place.
 *
 * The cases that call MapaFunctionHelpers (whose code is not part of this
 * model), and its `novaCena`, go through the `Helpers` parameter.
 */
module MapaReducer {
  import opened JsCore
  import opened JsText
  import opened MapaTypes

  /** A call into MapaFunctionHelpers, with the arguments the reducer passes. */
  datatype HelperCall =
    | ChangeElementoInteracao(ctx: Ctx, arg: Val)
    | WithAction(helper: string, ctx: Ctx, action: Action)
    | EditarPropriedadeElemento(ctx: Ctx, tipo: Val, id: Val, nomePropriedade: Val, valorPropriedade: Val)

  /** MapaFunctionHelpers: the delegated cases, and `novaCena`, the scene that `inserindoNovaCena` appends. */
  datatype Helpers = Helpers(run: HelperCall -> Ctx, novaCena: Ctx -> Cena)

  /** Every action type the reducer's switch has a case for. */
  const Kinds: set<string> := {
    "modoVisao", "alteraPropriedadesMapa", "selecionarElementoInteracao",
    "adicionarElementoFoco", "adicionarAlteracaoElemento", "selecionarElementosFoco",
    "selecionarElementoFoco", "selecionarElementosFocoPorId", "desativarElementos",
    "addMarker", "addPolyline", "addPolygon", "addCircle", "propriedadeToggle",
    "removeElements", "updateTimelineElement", "editarPropriedade", "trocaMapaContext",
    "atualizaTempo", "alteraPropriedadeGeral", "alteraPropriedadeTimelineOptions",
    "inserindoNovaCena", "alteraPropriedadeCena", "fixarCena"
  }

  /** The helper each delegating case calls with the whole action. */
  function HelperFor(kind: string): Option<string> {
    if kind == "adicionarElementoFoco" then Some("changeElementosFoco")
    else if kind == "adicionarAlteracaoElemento" then Some("addAlteracaoElemento")
    else if kind == "selecionarElementosFoco" then Some("changeTodosElementosFoco")
    else if kind == "selecionarElementoFoco" then Some("changeElementoFoco")
    else if kind == "selecionarElementosFocoPorId" then Some("changeTodosElementosFocoPorIds")
    else if kind == "addMarker" then Some("addElementoMarker")
    else if kind == "addPolyline" then Some("addElementoPolyline")
    else if kind == "addPolygon" then Some("addElementoPolygon")
    else if kind == "addCircle" then Some("addElementoCirculo")
    else if kind == "removeElements" then Some("removeElemento")
    else if kind == "updateTimelineElement" then Some("atualizaLinhaTempoElemento")
    else None
  }

  /** `cena[k] = v` for a scene. */
  function SetCena(x: Cena, k: string, v: Val): Cena {
    Cena(x.props[k := v])
  }

  function TipoVal(tipo: Option<string>): Val {
    if tipo.Some? then Str(tipo.value) else Undefined
  }

  /** The property name a computed key `[action.tipo]` denotes: an undefined `tipo` is the key "undefined". */
  function KeyOf(tipo: Option<string>): string {
    if tipo.Some? then tipo.value else "undefined"
  }


  // ---------------------------------------------------------------------------
  // Cases that only build a spread copy

  /** `modoVisao`: the view mode becomes `action.tipo`; nothing else changes. */
  function ModoVisao(c: Ctx, tipo: Option<string>): (r: Ctx)
    ensures Get(r.props, "modoVisao") == TipoVal(tipo)
    ensures OnlyProps(c, r, {"modoVisao"})
  {
    c.(props := c.props["modoVisao" := TipoVal(tipo)])
  }

  /** `propriedadeToggle`: the properties panel flag flips; nothing else changes. */
  function PropriedadeToggle(c: Ctx): (r: Ctx)
    ensures Get(r.props, "slidePropriedade").Bool?
    ensures Truthy(Get(r.props, "slidePropriedade")) == !Truthy(Get(c.props, "slidePropriedade"))
    ensures OnlyProps(c, r, {"slidePropriedade"})
  {
    c.(props := c.props["slidePropriedade" := Bool(!Truthy(Get(c.props, "slidePropriedade")))])
  }

  /** Toggling a boolean flag twice gives back the document it started from. */
  lemma PropriedadeToggleTwice(c: Ctx)
    requires Get(c.props, "slidePropriedade").Bool?
    ensures PropriedadeToggle(PropriedadeToggle(c)) == c
  {
    var r := PropriedadeToggle(PropriedadeToggle(c));
    assert r.props == c.props;
  }

  /** `alteraPropriedadesMapa`: the viewport is read from the Leaflet map, or undefined without one. */
  function AlteraPropriedadesMapa(c: Ctx, m: Option<MapView>): (r: Ctx)
    ensures m.Some? ==> View(r.props) == (m.value.center, m.value.zoom, m.value.bounds)
    ensures m.None? ==> View(r.props) == (Undefined, Undefined, Undefined)
    ensures OnlyProps(c, r, Viewport)
  {
    var v := if m.Some? then (m.value.center, m.value.zoom, m.value.bounds) else (Undefined, Undefined, Undefined);
    c.(props := SetView(c.props, v))
  }

  /** `trocaMapaContext`: a copy of `action.mapContext` when there is one, else of the old document. */
  function TrocaMapaContext(c: Ctx, mapContext: Option<Ctx>): (r: Ctx)
    ensures mapContext.Some? ==> r == mapContext.value
    ensures mapContext.None? ==> r == c
  {
    if mapContext.Some? then mapContext.value else c
  }

  // ---------------------------------------------------------------------------
  // Cases that write into the old document first

  /**
   * The test `atualizaTempo` applies to each scene: the new time lies inside it
   * and the old time did not.
   */
  predicate EntraNaCena(x: Cena, novo: Val, antigo: Val) {
    && MomentLe(CenaInicio(x), novo)
    && MomentLe(novo, CenaFim(x))
    && (MomentLt(antigo, CenaInicio(x)) || MomentLt(CenaFim(x), antigo))
  }

  /** The time `atualizaTempo` moves to: `action.time ?? oldMapaContext.tempo`. */
  function NovoTempo(c: Ctx, time: Val): Val {
    Coalesce(time, Get(c.props, "tempo"))
  }

  /**
   * What `atualizaTempo` writes into the old document: the viewport of the
   * first scene just entered, if there is one.
   */
  function AtualizaTempoMutacao(c: Ctx, time: Val): (m: Ctx)
    ensures OnlyProps(c, m, Viewport)
  {
    var novo := NovoTempo(c, time);
    var antigo := Get(c.props, "tempo");
    var k := Find(c.cenas, x => EntraNaCena(x, novo, antigo));
    if k.Some? then c.(props := SetView(c.props, View(c.cenas[k.value].props))) else c
  }

  /**
   * `atualizaTempo`: the time becomes `action.time ?? tempo`; the viewport is
   * taken from the first scene that holds the new time and did not hold the
   * old one, and stays as it was when no scene is newly entered.
   */
  function AtualizaTempo(c: Ctx, time: Val): (r: Ctx)
    ensures Get(r.props, "tempo") == NovoTempo(c, time)
    ensures forall k :: 0 <= k < |c.cenas| && EntraNaCena(c.cenas[k], NovoTempo(c, time), Get(c.props, "tempo"))
                        && (forall j :: 0 <= j < k ==> !EntraNaCena(c.cenas[j], NovoTempo(c, time), Get(c.props, "tempo")))
                        ==> View(r.props) == View(c.cenas[k].props)
    ensures (forall k :: 0 <= k < |c.cenas| ==> !EntraNaCena(c.cenas[k], NovoTempo(c, time), Get(c.props, "tempo")))
            ==> View(r.props) == View(c.props)
    ensures OnlyProps(c, r, Viewport + {"tempo"})
  {
    var m := AtualizaTempoMutacao(c, time);
    var novo := NovoTempo(c, time);
    var r := m.(props := m.props["tempo" := novo]);
    assert View(r.props) == View(m.props);
    r
  }

  /**
   * What `alteraPropriedadeGeral` writes into the old document's scenes: the
   * first scene's start for `cenaInicio`, the last scene's end for `cenaFim`.
   * With no scene, `cenas[0]` (or `cenas[-1]`) is undefined and the write throws.
   */
  function AlteraPropriedadeGeralMutacao(c: Ctx, t: string, valor: Val): (m: Result<Ctx>)
    ensures (t == "cenaInicio" || t == "cenaFim") && |c.cenas| == 0 <==> m.Err?
    ensures m.Ok? ==> m.value.props == c.props && |m.value.cenas| == |c.cenas|
  {
    if t == "cenaInicio" then
      if |c.cenas| == 0 then Err(TypeError("cenas[0] is undefined"))
      else Ok(c.(cenas := c.cenas[0 := SetCena(c.cenas[0], "cenaInicio", valor)]))
    else if t == "cenaFim" then
      if |c.cenas| == 0 then Err(TypeError("cenas[cenas.length - 1] is undefined"))
      else Ok(c.(cenas := c.cenas[|c.cenas| - 1 := SetCena(c.cenas[|c.cenas| - 1], "cenaFim", valor)]))
    else Ok(c)
  }

  /**
   * `alteraPropriedadeGeral`: sets the document property `action.tipo` to
   * `action.valor`. A key naming a scene field ("cena...") needs a valid form
   * (an invalid one returns the old document as it is), and `cenaInicio` /
   * `cenaFim` also move the start of the first scene / the end of the last one.
   */
  function AlteraPropriedadeGeral(c: Ctx, tipo: Option<string>, valor: Val, formik: Option<bool>): (r: Result<Ctx>)
    ensures tipo.None? ==> r.Err?
    ensures tipo.Some? && Contains(tipo.value, "cena") && formik == Some(false) ==> r == Ok(c)
    ensures tipo.Some? && Contains(tipo.value, "cena") && formik.None? ==> r.Err?
    ensures r.Ok? && r != Ok(c) ==> tipo.Some? && Get(r.value.props, tipo.value) == valor
    ensures r.Ok? && tipo.Some? && (!Contains(tipo.value, "cena") || formik == Some(true)) ==>
              && Get(r.value.props, tipo.value) == valor
              && r.value.props - {tipo.value} == c.props - {tipo.value}
    ensures r.Ok? ==> r.value.timelineOptions == c.timelineOptions && r.value.grupos == c.grupos
    ensures r.Ok? && tipo != Some("cenaInicio") && tipo != Some("cenaFim") ==> r.value.cenas == c.cenas
    ensures r.Ok? && tipo == Some("cenaInicio") && formik == Some(true) && |c.cenas| > 0 ==>
              r.value.cenas == c.cenas[0 := SetCena(c.cenas[0], "cenaInicio", valor)]
    ensures r.Ok? && tipo == Some("cenaFim") && formik == Some(true) && |c.cenas| > 0 ==>
              r.value.cenas == c.cenas[|c.cenas| - 1 := SetCena(c.cenas[|c.cenas| - 1], "cenaFim", valor)]
    ensures tipo.Some? && (tipo.value == "cenaInicio" || tipo.value == "cenaFim") && formik == Some(true) ==>
              (r.Err? <==> |c.cenas| == 0)
  {
    if tipo.None? then Err(TypeError("action.tipo is undefined"))
    else
      var t := tipo.value;
      if Contains(t, "cena") && formik.None? then Err(TypeError("action.formik is undefined"))
      else if Contains(t, "cena") && !formik.value then Ok(c)
      else
        match AlteraPropriedadeGeralMutacao(c, t, valor)
        case Err(e) => Err(e)
        case Ok(m) => Ok(m.(props := m.props[t := valor]))
  }

  /**
   * What `alteraPropriedadeTimelineOptions` writes into the old document: when
   * `showCurrentTime` is switched on, the time goes back to the document's start.
   */
  function AlteraTimelineOptionsMutacao(c: Ctx, tipo: Option<string>, valor: Val): (m: Ctx)
    ensures OnlyProps(c, m, {"tempo"})
  {
    if tipo == Some("showCurrentTime") && Truthy(valor) then
      c.(props := c.props["tempo" := Get(c.props, "cenaInicio")])
    else c
  }

  /**
   * `alteraPropriedadeTimelineOptions`: sets exactly the option `action.tipo` to
   * `action.valor`; switching `showCurrentTime` on also resets `tempo` to `cenaInicio`.
   */
  function AlteraPropriedadeTimelineOptions(c: Ctx, tipo: Option<string>, valor: Val): (r: Ctx)
    ensures KeyOf(tipo) in r.timelineOptions && r.timelineOptions[KeyOf(tipo)] == valor
    ensures r.timelineOptions - {KeyOf(tipo)} == c.timelineOptions - {KeyOf(tipo)}
    ensures tipo == Some("showCurrentTime") && Truthy(valor) ==> Get(r.props, "tempo") == Get(c.props, "cenaInicio")
    ensures !(tipo == Some("showCurrentTime") && Truthy(valor)) ==> r.props == c.props
    ensures r.props - {"tempo"} == c.props - {"tempo"} && r.cenas == c.cenas && r.grupos == c.grupos
  {
    var m := AlteraTimelineOptionsMutacao(c, tipo, valor);
    m.(timelineOptions := m.timelineOptions[KeyOf(tipo) := valor])
  }

  /** What `inserindoNovaCena` writes into the old document: the new scene pushed onto `cenas`. */
  function InserindoNovaCenaMutacao(c: Ctx, nova: Cena): (m: Ctx)
    ensures m.cenas == c.cenas + [nova] && m.props == c.props
  {
    c.(cenas := c.cenas + [nova])
  }

  /** `inserindoNovaCena`: one scene is appended and the document's end becomes that scene's end. */
  function InserindoNovaCena(c: Ctx, nova: Cena): (r: Ctx)
    ensures |r.cenas| == |c.cenas| + 1 && r.cenas[..|c.cenas|] == c.cenas && r.cenas[|c.cenas|] == nova
    ensures Get(r.props, "cenaFim") == CenaFim(nova)
    ensures r.props - {"cenaFim"} == c.props - {"cenaFim"}
    ensures r.timelineOptions == c.timelineOptions && r.grupos == c.grupos
  {
    var m := InserindoNovaCenaMutacao(c, nova);
    assert m.cenas[..|c.cenas|] == c.cenas;
    m.(props := m.props["cenaFim" := CenaFim(nova)])
  }

  /**
   * The scenes `alteraPropriedadeCena` edits besides the one at `i`: the
   * previous scene's end moves with a scene's start (for `i > 0`), and the next
   * scene's start moves with a scene's end only while `i < cenas.length - 2`.
   */
  function EditaCena(cenas: seq<Cena>, t: string, valor: Val, i: nat): (r: seq<Cena>)
    requires i < |cenas|
    ensures |r| == |cenas|
    ensures r[i] == SetCena(cenas[i], t, valor)
    ensures t == "cenaInicio" && i > 0 ==> r[i - 1] == SetCena(cenas[i - 1], "cenaFim", valor)
    ensures t == "cenaFim" && i < |cenas| - 2 ==> r[i + 1] == SetCena(cenas[i + 1], "cenaInicio", valor)
    ensures forall j :: 0 <= j < |cenas| && j != i
                        && !(t == "cenaInicio" && i > 0 && j == i - 1)
                        && !(t == "cenaFim" && i < |cenas| - 2 && j == i + 1)
                        ==> r[j] == cenas[j]
  {
    if Contains(t, "cena") then
      if t == "cenaInicio" then
        var a := cenas[i := SetCena(cenas[i], t, valor)];
        if i > 0 then a[i - 1 := SetCena(a[i - 1], "cenaFim", valor)] else a
      else if t == "cenaFim" then
        var a := cenas[i := SetCena(cenas[i], t, valor)];
        if i < |cenas| - 2 then a[i + 1 := SetCena(a[i + 1], "cenaInicio", valor)] else a
      else cenas[i := SetCena(cenas[i], t, valor)]
    else cenas[i := SetCena(cenas[i], t, valor)]
  }

  /**
   * `alteraPropriedadeCena`: with an invalid form the old document comes back
   * as it is; otherwise scene `indiceElemento` gets `tipo := valor`
   * (see `EditaCena` for its neighbours), and nothing outside the scenes changes.
   * A missing form, a missing `tipo` or an index with no scene throws.
   * The returned copy shows exactly what was written into the old document.
   */
  function AlteraPropriedadeCena(c: Ctx, tipo: Option<string>, valor: Val, indice: Option<int>, formik: Option<bool>): (r: Result<Ctx>)
    ensures formik == Some(false) ==> r == Ok(c)
    ensures formik.None? || (formik == Some(true) && tipo.None?) ==> r.Err?
    ensures formik == Some(true) && tipo.Some? ==>
              (r.Ok? <==> indice.Some? && 0 <= indice.value < |c.cenas|)
    ensures r.Ok? && formik == Some(true) ==>
              r.value == c.(cenas := EditaCena(c.cenas, tipo.value, valor, indice.value))
  {
    if formik.None? then Err(TypeError("action.formik is undefined"))
    else if !formik.value then Ok(c)
    else if tipo.None? then Err(TypeError("action.tipo is undefined"))
    else if indice.None? || !(0 <= indice.value < |c.cenas|) then Err(TypeError("cenas[indiceElemento] is undefined"))
    else Ok(c.(cenas := EditaCena(c.cenas, tipo.value, valor, indice.value)))
  }

  /**
   * `fixarCena`: the first scene whose `id` is `action.id` takes the document's
   * `center`, `zoom` and `bounds`; the other scenes are untouched. With no such
   * scene, `ctent` is undefined and the write throws. The returned copy shows
   * exactly what was written into the old document.
   */
  function FixarCena(c: Ctx, id: Val): (r: Result<Ctx>)
    ensures r.Err? <==> forall k :: 0 <= k < |c.cenas| ==> Get(c.cenas[k].props, "id") != id
    ensures r.Ok? ==> exists k :: && 0 <= k < |c.cenas|
                                  && Get(c.cenas[k].props, "id") == id
                                  && (forall j :: 0 <= j < k ==> Get(c.cenas[j].props, "id") != id)
                                  && r.value == c.(cenas := c.cenas[k := Cena(SetView(c.cenas[k].props, View(c.props)))])
  {
    var k := Find(c.cenas, (x: Cena) => Get(x.props, "id") == id);
    if k.None? then Err(TypeError("no scene has action.id"))
    else Ok(c.(cenas := c.cenas[k.value := Cena(SetView(c.cenas[k.value].props, View(c.props)))]))
  }

  // ---------------------------------------------------------------------------
  // The whole reducer, on values

  /** What `mapaReducer` returns for an action, or the exception it throws. */
  function ReduceValue(c: Ctx, a: Action, h: Helpers): (r: Result<Ctx>)
    ensures r == Err(Error("Unknown action: " + a.kind)) <==> a.kind !in Kinds
  {
    var k := a.kind;
    if k == "modoVisao" then Ok(ModoVisao(c, a.tipo))
    else if k == "alteraPropriedadesMapa" then Ok(AlteraPropriedadesMapa(c, a.leaflet))
    else if k == "selecionarElementoInteracao" then Ok(h.run(ChangeElementoInteracao(c, a.arg)))
    else if k == "desativarElementos" then Ok(h.run(ChangeElementoInteracao(c, Null)))
    else if HelperFor(k).Some? then Ok(h.run(WithAction(HelperFor(k).value, c, a)))
    else if k == "editarPropriedade" then
      Ok(h.run(EditarPropriedadeElemento(c, TipoVal(a.tipo), a.id, Get(a.outros, "nomePropriedade"), Get(a.outros, "valorPropriedade"))))
    else if k == "propriedadeToggle" then Ok(PropriedadeToggle(c))
    else if k == "trocaMapaContext" then Ok(TrocaMapaContext(c, a.mapContext))
    else if k == "atualizaTempo" then Ok(AtualizaTempo(c, a.time))
    else if k == "alteraPropriedadeGeral" then AlteraPropriedadeGeral(c, a.tipo, a.valor, a.formik)
    else if k == "alteraPropriedadeTimelineOptions" then Ok(AlteraPropriedadeTimelineOptions(c, a.tipo, a.valor))
    else if k == "inserindoNovaCena" then Ok(InserindoNovaCena(c, h.novaCena(c)))
    else if k == "alteraPropriedadeCena" then AlteraPropriedadeCena(c, a.tipo, a.valor, a.indiceElemento, a.formik)
    else if k == "fixarCena" then FixarCena(c, a.id)
    else Err(Error("Unknown action: " + k))
  }

  /** An `alteraPropriedadeCena` action is handled by `AlteraPropriedadeCena`. */
  lemma ReduceSceneEdit(c: Ctx, a: Action, h: Helpers)
    requires a.kind == "alteraPropriedadeCena"
    ensures ReduceValue(c, a, h) == AlteraPropriedadeCena(c, a.tipo, a.valor, a.indiceElemento, a.formik)
  {
  }

  /**
   * The state `oldMapaContext` is left in after the call: the writes of the
   * cases that work in place; the old document itself for the other cases and
   * whenever the case throws before writing. The in-place writes reach only
   * the viewport, `tempo` and the scenes: the options, the element groups and
   * every other property of the old document stay as they were.
   */
  function Mutated(c: Ctx, a: Action, h: Helpers): (m: Ctx)
    ensures m.props - (Viewport + {"tempo"}) == c.props - (Viewport + {"tempo"})
    ensures m.timelineOptions == c.timelineOptions && m.grupos == c.grupos
    ensures a.kind != "inserindoNovaCena" ==> |m.cenas| == |c.cenas|
  {
    var k := a.kind;
    if k == "atualizaTempo" then AtualizaTempoMutacao(c, a.time)
    else if k == "alteraPropriedadeGeral" then
      if a.tipo.Some? && Contains(a.tipo.value, "cena") && a.formik == Some(true) then
        match AlteraPropriedadeGeralMutacao(c, a.tipo.value, a.valor)
        case Ok(m) => m
        case Err(_) => c
      else c
    else if k == "alteraPropriedadeTimelineOptions" then AlteraTimelineOptionsMutacao(c, a.tipo, a.valor)
    else if k == "inserindoNovaCena" then InserindoNovaCenaMutacao(c, h.novaCena(c))
    else if k == "alteraPropriedadeCena" then
      match AlteraPropriedadeCena(c, a.tipo, a.valor, a.indiceElemento, a.formik)
      case Ok(m) => m
      case Err(_) => c
    else if k == "fixarCena" then
      match FixarCena(c, a.id)
      case Ok(m) => m
      case Err(_) => c
    else c
  }

  /**
   * For a scene edit, a scene fix and a scene insertion the old document ends
   * up holding the same scenes as the document returned: the state the store
   * keeps as "before" already shows the change.
   */
  lemma {:induction false} MutatedSharesScenes(c: Ctx, a: Action, h: Helpers)
    requires a.kind in {"alteraPropriedadeCena", "fixarCena", "inserindoNovaCena", "alteraPropriedadeGeral"}
    requires ReduceValue(c, a, h).Ok?
    ensures Mutated(c, a, h).cenas == ReduceValue(c, a, h).value.cenas
  {
    if a.kind == "alteraPropriedadeGeral" {
      var t := a.tipo.value;
      if Contains(t, "cena") && a.formik == Some(true) {
        var m := AlteraPropriedadeGeralMutacao(c, t, a.valor);
        assert m.Ok?;
      } else if Contains(t, "cena") {
        assert ReduceValue(c, a, h) == Ok(c);
      } else {
        assert t != "cenaInicio" && t != "cenaFim" by {
          assert StartsWith("cenaInicio"[4..], "Inicio");
          assert Contains("cenaInicio", "cena") && Contains("cenaFim", "cena");
        }
      }
    }
  }

  /** For `alteraPropriedadeCena` and `fixarCena` the old document ends up equal to the document returned. */
  lemma MutatedIsResult(c: Ctx, a: Action, h: Helpers)
    requires a.kind == "alteraPropriedadeCena" || a.kind == "fixarCena"
    requires ReduceValue(c, a, h).Ok?
    ensures Mutated(c, a, h) == ReduceValue(c, a, h).value
  {
  }

  // ---------------------------------------------------------------------------
  // The reducer on heap objects

  /** The object behind `conteudo`: the scene array and the element groups. */
  class Conteudo {
    var cenas: seq<Cena>
    var grupos: map<string, seq<Elemento>>

    constructor (cenas: seq<Cena>, grupos: map<string, seq<Elemento>>)
      ensures this.cenas == cenas && this.grupos == grupos
    {
      this.cenas := cenas;
      this.grupos := grupos;
    }
  }

  /** A document object: its own properties, and the `conteudo` object it may share with its copies. */
  class Documento {
    var props: map<string, Val>
    var timelineOptions: map<string, Val>
    var conteudo: Conteudo

    constructor (props: map<string, Val>, timelineOptions: map<string, Val>, conteudo: Conteudo)
      ensures this.props == props && this.timelineOptions == timelineOptions && this.conteudo == conteudo
    {
      this.props := props;
      this.timelineOptions := timelineOptions;
      this.conteudo := conteudo;
    }

    /** The document this object and its `conteudo` currently hold. */
    function Value(): Ctx
      reads this, conteudo
    {
      Ctx(props, timelineOptions, conteudo.cenas, conteudo.grupos)
    }
  }

  /** A fresh document object, with a fresh `conteudo`, holding `v`. */
  method NovoDocumento(v: Ctx) returns (d: Documento)
    ensures fresh(d) && fresh(d.conteudo) && d.Value() == v
  {
    var ct := new Conteudo(v.cenas, v.grupos);
    d := new Documento(v.props, v.timelineOptions, ct);
  }

  /** `{ ...d, <props> }`: a fresh top-level object with the given properties that shares `d.conteudo`. */
  method Espalha(d: Documento, props: map<string, Val>, timelineOptions: map<string, Val>) returns (r: Documento)
    ensures fresh(r) && r.conteudo == d.conteudo
    ensures r.props == props && r.timelineOptions == timelineOptions
  {
    r := new Documento(props, timelineOptions, d.conteudo);
  }

  /** The action types whose result is a shallow copy of the old document, sharing its `conteudo`. */
  predicate CopiaRasa(a: Action) {
    || a.kind in {"modoVisao", "alteraPropriedadesMapa", "propriedadeToggle", "atualizaTempo",
                 "alteraPropriedadeGeral", "alteraPropriedadeTimelineOptions", "inserindoNovaCena",
                 "alteraPropriedadeCena", "fixarCena"}
    || (a.kind == "trocaMapaContext" && a.mapContext.None?)
  }

  /**
   * `mapaReducer` as written: it returns the document `ReduceValue` describes,
   * leaves `oldMapaContext` in the state `Mutated` describes, and for the
   * shallow-copy cases the returned object shares `conteudo` with it.
   */
  method Reduzir(prev: Documento, a: Action, h: Helpers) returns (r: Result<Documento>)
    modifies prev, prev.conteudo
    ensures prev.conteudo == old(prev.conteudo)
    ensures r.Ok? <==> ReduceValue(old(prev.Value()), a, h).Ok?
    ensures r.Ok? ==> r.value.Value() == ReduceValue(old(prev.Value()), a, h).value
    ensures r.Err? ==> r.error == ReduceValue(old(prev.Value()), a, h).error
    ensures prev.Value() == Mutated(old(prev.Value()), a, h)
    ensures r.Ok? && CopiaRasa(a) ==> r.value.conteudo == prev.conteudo
  {
    var c := prev.Value();
    var k := a.kind;
    if k == "atualizaTempo" {
      var novo := NovoTempo(c, a.time);
      var antigo := Get(prev.props, "tempo");
      var i := Find(prev.conteudo.cenas, x => EntraNaCena(x, novo, antigo));
      if i.Some? {
        var cena := prev.conteudo.cenas[i.value];
        prev.props := prev.props["center" := Get(cena.props, "center")];
        prev.props := prev.props["zoom" := Get(cena.props, "zoom")];
        prev.props := prev.props["bounds" := Get(cena.props, "bounds")];
      }
      var d := Espalha(prev, prev.props["tempo" := novo], prev.timelineOptions);
      r := Ok(d);
    } else if k == "alteraPropriedadeGeral" {
      r := AlteraPropriedadeGeralInPlace(prev, a, h);
    } else if k == "alteraPropriedadeTimelineOptions" {
      if a.tipo == Some("showCurrentTime") && Truthy(a.valor) {
        prev.props := prev.props["tempo" := Get(prev.props, "cenaInicio")];
      }
      var d := Espalha(prev, prev.props, prev.timelineOptions[KeyOf(a.tipo) := a.valor]);
      r := Ok(d);
    } else if k == "inserindoNovaCena" {
      var nova := h.novaCena(c);
      prev.conteudo.cenas := prev.conteudo.cenas + [nova];
      var d := Espalha(prev, prev.props["cenaFim" := CenaFim(nova)], prev.timelineOptions);
      r := Ok(d);
    } else if k == "alteraPropriedadeCena" {
      r := AlteraPropriedadeCenaInPlace(prev, a, h);
    } else if k == "fixarCena" {
      var i := Find(prev.conteudo.cenas, (x: Cena) => Get(x.props, "id") == a.id);
      if i.None? {
        r := Err(TypeError("no scene has action.id"));
      } else {
        var cena := prev.conteudo.cenas[i.value];
        prev.conteudo.cenas := prev.conteudo.cenas[i.value := Cena(SetView(cena.props, View(prev.props)))];
        var d := Espalha(prev, prev.props, prev.timelineOptions);
        r := Ok(d);
      }
    } else if CopiaRasa(a) {
      var v := ReduceValue(c, a, h).value;
      var d := Espalha(prev, v.props, v.timelineOptions);
      r := Ok(d);
    } else {
      match ReduceValue(c, a, h)
      case Ok(v) =>
        var d := NovoDocumento(v);
        r := Ok(d);
      case Err(e) =>
        r := Err(e);
    }
  }

  /** The `alteraPropriedadeGeral` case on objects. */
  method AlteraPropriedadeGeralInPlace(prev: Documento, a: Action, h: Helpers) returns (r: Result<Documento>)
    requires a.kind == "alteraPropriedadeGeral"
    modifies prev.conteudo
    ensures r.Ok? <==> AlteraPropriedadeGeral(old(prev.Value()), a.tipo, a.valor, a.formik).Ok?
    ensures r.Ok? ==> r.value.Value() == AlteraPropriedadeGeral(old(prev.Value()), a.tipo, a.valor, a.formik).value
    ensures r.Err? ==> r.error == AlteraPropriedadeGeral(old(prev.Value()), a.tipo, a.valor, a.formik).error
    ensures r.Ok? ==> r.value.conteudo == prev.conteudo
    ensures prev.Value() == Mutated(old(prev.Value()), a, h)
  {
    if a.tipo.None? {
      r := Err(TypeError("action.tipo is undefined"));
      return;
    }
    var t := a.tipo.value;
    if Contains(t, "cena") {
      if a.formik.None? {
        r := Err(TypeError("action.formik is undefined"));
        return;
      }
      if !a.formik.value {
        r := Ok(prev);
        return;
      }
      if t == "cenaInicio" {
        if |prev.conteudo.cenas| == 0 {
          r := Err(TypeError("cenas[0] is undefined"));
          return;
        }
        prev.conteudo.cenas := prev.conteudo.cenas[0 := SetCena(prev.conteudo.cenas[0], "cenaInicio", a.valor)];
      }
      if t == "cenaFim" {
        var n := |prev.conteudo.cenas|;
        if n == 0 {
          r := Err(TypeError("cenas[cenas.length - 1] is undefined"));
          return;
        }
        prev.conteudo.cenas := prev.conteudo.cenas[n - 1 := SetCena(prev.conteudo.cenas[n - 1], "cenaFim", a.valor)];
      }
    }
    var d := Espalha(prev, prev.props[t := a.valor], prev.timelineOptions);
    r := Ok(d);
  }

  /** The `alteraPropriedadeCena` case on objects. */
  method AlteraPropriedadeCenaInPlace(prev: Documento, a: Action, h: Helpers) returns (r: Result<Documento>)
    requires a.kind == "alteraPropriedadeCena"
    modifies prev.conteudo
    ensures r.Ok? <==> AlteraPropriedadeCena(old(prev.Value()), a.tipo, a.valor, a.indiceElemento, a.formik).Ok?
    ensures r.Ok? ==> r.value.Value() == AlteraPropriedadeCena(old(prev.Value()), a.tipo, a.valor, a.indiceElemento, a.formik).value
    ensures r.Err? ==> r.error == AlteraPropriedadeCena(old(prev.Value()), a.tipo, a.valor, a.indiceElemento, a.formik).error
    ensures r.Ok? ==> r.value.conteudo == prev.conteudo
    ensures prev.Value() == Mutated(old(prev.Value()), a, h)
  {
    if a.formik.None? {
      r := Err(TypeError("action.formik is undefined"));
      return;
    }
    if !a.formik.value {
      r := Ok(prev);
      return;
    }
    if a.tipo.None? {
      r := Err(TypeError("action.tipo is undefined"));
      return;
    }
    var t := a.tipo.value;
    if a.indiceElemento.None? || !(0 <= a.indiceElemento.value < |prev.conteudo.cenas|) {
      r := Err(TypeError("cenas[indiceElemento] is undefined"));
      return;
    }
    var i: nat := a.indiceElemento.value;
    prev.conteudo.cenas := EditaCena(prev.conteudo.cenas, t, a.valor, i);
    var d := Espalha(prev, prev.props, prev.timelineOptions);
    r := Ok(d);
  }
}
