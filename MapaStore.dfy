/**
 * The Zustand store of src/stores/mapaStore.ts: the current document
 * (`context`) and the undo/redo history (`undoState`) over it.
 *
 * The store is a class whose methods overwrite its two fields, as the store's
 * `set` calls do. The reducer is a parameter of the store. The store imports
 * `mapaReducer` from src/components/Mapa/MapaEventDispatcher, which is not part
 * of this model; `AppReducer` takes it to be the `mapaReducer` of
 * MapaDispatchEvents.ts, that is `MapaReducer.ReduceValue`. What `moment()` and `v4()` return each
 * time `createInitialContext` runs is passed in as `now` (seconds) and a scene id.
 */
module MapaStore {
  import opened JsCore
  import opened MapaTypes
  import MapaReducer

  /** A reducer: the next document for an action, or the exception it throws. */
  type Reducer = (Ctx, Action) -> Result<Ctx>

  /** The reducer the application installs, taken to be MapaDispatchEvents' `mapaReducer`, with the given MapaFunctionHelpers. */
  function AppReducer(h: MapaReducer.Helpers): (r: Reducer)
    ensures forall c, x :: r(c, x) == MapaReducer.ReduceValue(c, x, h)
  {
    (c, x) => MapaReducer.ReduceValue(c, x, h)
  }

  /** The history: earlier documents (oldest first), the present one, and the documents undone (next first). */
  datatype UndoState = UndoState(past: seq<Ctx>, present: Ctx, future: seq<Ctx>)

  /** The number of past states the store keeps. */
  const HistoryLimit := 50

  /** `s.slice(-50)`: the last 50 entries, or all of them when there are fewer. */
  function Last50(s: seq<Ctx>): (r: seq<Ctx>)
    ensures |r| <= HistoryLimit
    ensures |s| <= HistoryLimit ==> r == s
    ensures |s| > HistoryLimit ==> |r| == HistoryLimit
    ensures r == s[|s| - |r|..]
  {
    if |s| <= HistoryLimit then s else s[|s| - HistoryLimit..]
  }

  /**
   * The default `timelineOptions` that `createInitialContext` builds when it
   * runs at time `now`: a ten-minute window starting at `now`, and the identity `snap`.
   */
  function DefaultTimelineOptions(now: int): (t: map<string, Val>)
    ensures Get(t, "start") == Time(now) && Get(t, "end") == Time(now + 600)
    ensures Get(t, "showCurrentTime") == Bool(false) && Get(t, "snap").Fn?
  {
    map[
      "editable" := Record(map["remove" := Bool(true), "updateTime" := Bool(true)]),
      "zoomKey" := Str("ctrlKey"),
      "preferZoom" := Bool(false),
      "start" := Time(now),
      "end" := Time(now + 600),
      "autoResize" := Bool(false),
      "selectable" := Bool(true),
      "multiselect" := Bool(false),
      "orientation" := Record(map["axis" := Str("top")]),
      "longSelectPressTime" := Num(777.0),
      "snap" := Fn("snap"),
      "rollingMode" := Record(map["offset" := Num(0.0), "follow" := Bool(false)]),
      "showCurrentTime" := Bool(false),
      "groupHeightMode" := Str("fitItems"),
      "verticalScroll" := Bool(true),
      "margin" := Record(map["item" := Record(map["vertical" := Num(20.0)])]),
      "zoomable" := Bool(true),
      "moveable" := Bool(true),
      "locale" := Str("pt_BR")
    ]
  }

  /**
   * `createInitialContext()` run at time `now` with `v4()` returning `sceneId`:
   * one scene, "cena #1", spanning the document's first minute, with the time
   * two seconds in; the Hand tool; no elements.
   */
  function InitialContext(now: int, sceneId: string): (c: Ctx)
    ensures |c.cenas| == 1 && c.grupos == map[]
    ensures CenaInicio(c.cenas[0]) == Get(c.props, "cenaInicio") == Time(now)
    ensures CenaFim(c.cenas[0]) == Get(c.props, "cenaFim") == Time(now + 60)
    ensures Get(c.cenas[0].props, "id") == Str(sceneId)
    ensures MomentLe(CenaInicio(c.cenas[0]), Get(c.props, "tempo")) && MomentLe(Get(c.props, "tempo"), CenaFim(c.cenas[0]))
    ensures c.timelineOptions == DefaultTimelineOptions(now)
  {
    var cena := Cena(map[
      "nome" := Str("cena #1"),
      "dataRef" := Str("cenas"),
      "visTimelineObject" := Record(map["type" := Str("background")]),
      "type" := Str("FeatureCollection"),
      "color" := Str("#df000024"),
      "id" := Str(sceneId),
      "cenaInicio" := Time(now),
      "cenaFim" := Time(now + 60)
    ]);
    Ctx(
      map[
        "simpleTimeline" := Bool(true),
        "elementoInteracao" := Opaque("elementos.Hand"),
        "slidePropriedade" := Bool(false),
        "slideLinhaTempo" := Bool(true),
        "mapOptions" := Record(map["center" := Shape(Nested([Scalar(0.0), Scalar(0.0)]))]),
        "playStatus" := Num(-1.0),
        "tempo" := Time(now + 2),
        "cenaInicio" := Time(now),
        "cenaFim" := Time(now + 60)
      ],
      DefaultTimelineOptions(now),
      [cena],
      map[])
  }

  /** A history with nothing to undo or redo. */
  function Fresh(c: Ctx): (u: UndoState)
    ensures u.present == c && u.past == [] && u.future == []
  {
    UndoState([], c, [])
  }

  /**
   * The document `dispatch` computes from the present one: a `reset` takes the
   * supplied document with the default timeline options under its own (or a new
   * initial document), `use-undo` runs the reducer as `trocaMapaContext`, and
   * every other action goes to the reducer as it is.
   */
  function NextContext(reducer: Reducer, present: Ctx, a: Action, now: int, sceneId: string): (r: Result<Ctx>)
    ensures a.kind == "reset" && a.mapContext.Some? ==>
              r == Ok(a.mapContext.value.(timelineOptions := DefaultTimelineOptions(now) + a.mapContext.value.timelineOptions))
    ensures a.kind == "reset" && a.mapContext.None? ==> r == Ok(InitialContext(now, sceneId))
    ensures a.kind == "use-undo" ==> r == reducer(present, a.(kind := "trocaMapaContext"))
    ensures a.kind != "reset" && a.kind != "use-undo" ==> r == reducer(present, a)
  {
    if a.kind == "reset" then
      if a.mapContext.Some? then
        var mc := a.mapContext.value;
        Ok(mc.(timelineOptions := DefaultTimelineOptions(now) + mc.timelineOptions))
      else Ok(InitialContext(now, sceneId))
    else if a.kind == "use-undo" then reducer(present, a.(kind := "trocaMapaContext"))
    else reducer(present, a)
  }

  /**
   * The history after `dispatch`: the new document becomes the present. A
   * `use-undo` leaves past and future alone; any other action records the old
   * present at the end of the past, keeps the last 50 of them, and forgets the
   * future. A reducer that throws leaves the history as it was.
   */
  function DispatchStep(reducer: Reducer, u: UndoState, a: Action, now: int, sceneId: string): (r: Result<UndoState>)
    ensures r.Ok? <==> NextContext(reducer, u.present, a, now, sceneId).Ok?
    ensures r.Err? ==> r.error == NextContext(reducer, u.present, a, now, sceneId).error
    ensures r.Ok? ==> r.value.present == NextContext(reducer, u.present, a, now, sceneId).value
    ensures r.Ok? && a.kind == "use-undo" ==> r.value.past == u.past && r.value.future == u.future
    ensures r.Ok? && a.kind != "use-undo" ==>
              && r.value.past == Last50(u.past + [u.present])
              && r.value.future == []
  {
    match NextContext(reducer, u.present, a, now, sceneId)
    case Err(e) => Err(e)
    case Ok(n) =>
      if a.kind != "use-undo" then Ok(UndoState(Last50(u.past + [u.present]), n, []))
      else Ok(u.(present := n))
  }

  /** `undo`: with an empty past nothing happens; otherwise the last past document comes back and the present is put in front of the future. */
  function UndoStep(u: UndoState): (r: UndoState)
    ensures |u.past| == 0 ==> r == u
    ensures |u.past| > 0 ==> && r.present == u.past[|u.past| - 1]
                             && r.past == u.past[..|u.past| - 1]
                             && r.future == [u.present] + u.future
  {
    if |u.past| == 0 then u
    else UndoState(u.past[..|u.past| - 1], u.past[|u.past| - 1], [u.present] + u.future)
  }

  /** `redo`: with an empty future nothing happens; otherwise the first future document comes back and the present is put at the end of the past. */
  function RedoStep(u: UndoState): (r: UndoState)
    ensures |u.future| == 0 ==> r == u
    ensures |u.future| > 0 ==> && r.present == u.future[0]
                               && r.past == u.past + [u.present]
                               && r.future == u.future[1..]
  {
    if |u.future| == 0 then u
    else UndoState(u.past + [u.present], u.future[0], u.future[1..])
  }

  /**
   * The bound the history keeps: past and future together hold at most 50
   * documents, so the past never exceeds 50. (Redo appends to the past without
   * trimming it, so the bound on the past alone is not preserved by itself.)
   */
  predicate Bounded(u: UndoState) {
    |u.past| + |u.future| <= HistoryLimit
  }

  lemma {:induction false} DispatchKeepsBound(reducer: Reducer, u: UndoState, a: Action, now: int, sceneId: string)
    requires Bounded(u)
    requires DispatchStep(reducer, u, a, now, sceneId).Ok?
    ensures Bounded(DispatchStep(reducer, u, a, now, sceneId).value)
    ensures |DispatchStep(reducer, u, a, now, sceneId).value.past| <= HistoryLimit
  {
  }

  lemma UndoRedoKeepBound(u: UndoState)
    requires Bounded(u)
    ensures Bounded(UndoStep(u)) && |UndoStep(u).past| <= HistoryLimit
    ensures Bounded(RedoStep(u)) && |RedoStep(u).past| <= HistoryLimit
  {
  }

  /** Undo then redo gives back the history it started from. */
  lemma RedoAfterUndo(u: UndoState)
    requires |u.past| > 0
    ensures RedoStep(UndoStep(u)) == u
  {
    var p := u.past;
    assert p[..|p| - 1] + [p[|p| - 1]] == p;
  }

  /** Redo then undo gives back the history it started from. */
  lemma UndoAfterRedo(u: UndoState)
    requires |u.future| > 0
    ensures UndoStep(RedoStep(u)) == u
  {
    var r := RedoStep(u);
    assert r.past[..|r.past| - 1] == u.past;
    assert [u.present] + u.future[1..] == [u.present] + u.future[1..];
    assert [u.future[0]] + u.future[1..] == u.future;
  }

  /**
   * Undoing a dispatch gives back the document that was present before it, and
   * the past it had, less its oldest entry when the past was already full; the
   * document the dispatch made is then the only one to redo.
   */
  lemma {:induction false} UndoAfterDispatch(reducer: Reducer, u: UndoState, a: Action, now: int, sceneId: string)
    requires a.kind != "use-undo"
    requires DispatchStep(reducer, u, a, now, sceneId).Ok?
    ensures UndoStep(DispatchStep(reducer, u, a, now, sceneId).value).present == u.present
    ensures |u.past| < HistoryLimit ==> UndoStep(DispatchStep(reducer, u, a, now, sceneId).value).past == u.past
    ensures |u.past| >= HistoryLimit ==> UndoStep(DispatchStep(reducer, u, a, now, sceneId).value).past == u.past[|u.past| - HistoryLimit + 1..]
    ensures UndoStep(DispatchStep(reducer, u, a, now, sceneId).value).future == [NextContext(reducer, u.present, a, now, sceneId).value]
  {
    var r := DispatchStep(reducer, u, a, now, sceneId).value;
    var s := u.past + [u.present];
    assert r.past == Last50(s);
    assert |r.past| > 0;
    if |u.past| >= HistoryLimit {
      assert r.past == s[|s| - HistoryLimit..];
      assert r.past[..|r.past| - 1] == u.past[|u.past| - HistoryLimit + 1..];
    } else {
      assert r.past == s;
      assert s[..|s| - 1] == u.past;
    }
  }

  /** Undo changes the history exactly when there is something to undo, and redo exactly when there is something to redo. */
  lemma UndoRedoEffect(u: UndoState)
    ensures UndoStep(u) != u <==> |u.past| > 0
    ensures RedoStep(u) != u <==> |u.future| > 0
  {
    if |u.past| > 0 {
      assert |UndoStep(u).future| == |u.future| + 1;
    }
    if |u.future| > 0 {
      assert |RedoStep(u).past| == |u.past| + 1;
    }
  }

  /**
   * With the application's reducer, a `use-undo` dispatch makes the carried
   * document present (or keeps the present one when none is carried) and
   * touches neither past nor future.
   */
  lemma UseUndoSwapsPresent(h: MapaReducer.Helpers, u: UndoState, a: Action, now: int, sceneId: string)
    requires a.kind == "use-undo"
    ensures DispatchStep(AppReducer(h), u, a, now, sceneId)
            == Ok(UndoState(u.past, if a.mapContext.Some? then a.mapContext.value else u.present, u.future))
  {
    var x := a.(kind := "trocaMapaContext");
    assert MapaReducer.ReduceValue(u.present, x, h) == Ok(MapaReducer.TrocaMapaContext(u.present, x.mapContext));
  }

  /** The store: the document shown, and its history. */
  class Store {
    var context: Ctx
    var undoState: UndoState
    const reducer: Reducer

    /** The history bound holds and the shown document is the present one. */
    predicate Valid()
      reads this
    {
      Bounded(undoState) && context == undoState.present
    }

    /**
     * The store as created: `context` and `undoState.present` come from two
     * separate runs of `createInitialContext`, so they are the same document
     * only when both runs see the same clock and the same new id.
     */
    constructor (reducer: Reducer, now: int, sceneId: string, now2: int, sceneId2: string)
      ensures this.reducer == reducer
      ensures context == InitialContext(now, sceneId)
      ensures undoState == Fresh(InitialContext(now2, sceneId2))
      ensures Bounded(undoState)
      ensures now == now2 && sceneId == sceneId2 ==> Valid()
    {
      this.reducer := reducer;
      context := InitialContext(now, sceneId);
      undoState := Fresh(InitialContext(now2, sceneId2));
    }

    /**
     * `dispatch(action)`: the history moves as `DispatchStep` says and the
     * shown document is the new present. When the reducer throws, the store
     * is unchanged and the exception is returned.
     */
    method Dispatch(a: Action, now: int, sceneId: string) returns (thrown: Option<JsError>)
      requires Bounded(undoState)
      modifies this
      ensures Bounded(undoState)
      ensures thrown.None? <==> DispatchStep(reducer, old(undoState), a, now, sceneId).Ok?
      ensures thrown.None? ==> undoState == DispatchStep(reducer, old(undoState), a, now, sceneId).value
                               && context == undoState.present
      ensures thrown.Some? ==> thrown.value == DispatchStep(reducer, old(undoState), a, now, sceneId).error
                               && context == old(context) && undoState == old(undoState)
    {
      var oldContext := undoState.present;
      var next := NextContext(reducer, oldContext, a, now, sceneId);
      if next.Err? {
        thrown := Some(next.error);
        return;
      }
      var newContext := next.value;
      if a.kind != "use-undo" {
        context := newContext;
        undoState := UndoState(Last50(undoState.past + [oldContext]), newContext, []);
      } else {
        context := newContext;
        undoState := undoState.(present := newContext);
      }
      thrown := None;
      DispatchKeepsBound(reducer, old(undoState), a, now, sceneId);
    }

    /** `reset(newContext?)`: the given document, or a new initial one, with nothing to undo or redo. */
    method Reset(newContext: Option<Ctx>, now: int, sceneId: string)
      modifies this
      ensures newContext.Some? ==> context == newContext.value
      ensures newContext.None? ==> context == InitialContext(now, sceneId)
      ensures undoState == Fresh(context)
      ensures Valid()
    {
      var initial := if newContext.Some? then newContext.value else InitialContext(now, sceneId);
      context := initial;
      undoState := Fresh(initial);
    }

    /** `clearStore()`: a new initial document with nothing to undo or redo. */
    method ClearStore(now: int, sceneId: string)
      modifies this
      ensures context == InitialContext(now, sceneId)
      ensures undoState == Fresh(context)
      ensures Valid()
    {
      var initial := InitialContext(now, sceneId);
      context := initial;
      undoState := Fresh(initial);
    }

    /** `undo()`: the history moves as `UndoStep` says and the shown document follows it (an empty past changes nothing). */
    method Undo()
      requires Bounded(undoState)
      modifies this
      ensures undoState == UndoStep(old(undoState))
      ensures |old(undoState).past| == 0 ==> context == old(context)
      ensures |old(undoState).past| > 0 ==> context == undoState.present
      ensures Bounded(undoState)
    {
      if |undoState.past| == 0 {
        return;
      }
      var newPresent := undoState.past[|undoState.past| - 1];
      var newPast := undoState.past[..|undoState.past| - 1];
      context := newPresent;
      undoState := UndoState(newPast, newPresent, [undoState.present] + undoState.future);
    }

    /** `redo()`: the history moves as `RedoStep` says and the shown document follows it (an empty future changes nothing). */
    method Redo()
      requires Bounded(undoState)
      modifies this
      ensures undoState == RedoStep(old(undoState))
      ensures |old(undoState).future| == 0 ==> context == old(context)
      ensures |old(undoState).future| > 0 ==> context == undoState.present
      ensures Bounded(undoState)
    {
      if |undoState.future| == 0 {
        return;
      }
      var newPresent := undoState.future[0];
      var newFuture := undoState.future[1..];
      context := newPresent;
      undoState := UndoState(undoState.past + [undoState.present], newPresent, newFuture);
    }

    /** `canUndo()`: there is a past document to go back to. */
    method CanUndo() returns (b: bool)
      ensures b <==> |undoState.past| > 0
    {
      b := |undoState.past| > 0;
    }

    /** `canRedo()`: there is an undone document to go forward to. */
    method CanRedo() returns (b: bool)
      ensures b <==> |undoState.future| > 0
    {
      b := |undoState.future| > 0;
    }

    /** `onRehydrateStorage`: after the persisted `context` is restored, the history starts afresh from it. */
    method Rehydrate(stored: Option<Ctx>)
      modifies this
      ensures stored.Some? ==> context == stored.value && undoState == Fresh(context) && Valid()
      ensures stored.None? ==> context == old(context) && undoState == old(undoState)
    {
      if stored.Some? {
        context := stored.value;
        undoState := Fresh(context);
      }
    }
  }

  // ---------------------------------------------------------------------------
  // The history as written: over document objects

  /**
   * `dispatch` as written, over document objects: the present object itself is
   * recorded in the past, and then handed to the reducer, which may write into
   * it. What undo would bring back is that object, in whatever state the
   * reducer left it (history trimming is left aside here).
   */
  method DispatchByReference(past: seq<MapaReducer.Documento>, present: MapaReducer.Documento, a: Action, h: MapaReducer.Helpers)
    returns (newPast: seq<MapaReducer.Documento>, next: Result<MapaReducer.Documento>)
    modifies present, present.conteudo
    ensures newPast == past + [present]
    ensures present.Value() == MapaReducer.Mutated(old(present.Value()), a, h)
    ensures next.Ok? <==> MapaReducer.ReduceValue(old(present.Value()), a, h).Ok?
    ensures next.Ok? ==> next.value.Value() == MapaReducer.ReduceValue(old(present.Value()), a, h).value
  {
    next := MapaReducer.Reduzir(present, a, h);
    newPast := past + [present];
  }

  /** A document with one scene, named "a". */
  const OneScene := Ctx(map[], map[], [Cena(map["nome" := Str("a")])], map[])

  /** The scene edit that renames scene 0 to "b", from a valid form. */
  const RenameScene := ActionOf("alteraPropriedadeCena").(tipo := Some("nome"), valor := Str("b"), indiceElemento := Some(0), formik := Some(true))

  /** `OneScene` after `RenameScene`. */
  const Renamed := OneScene.(cenas := [Cena(map["nome" := Str("b")])])

  lemma RenameSceneResult(h: MapaReducer.Helpers)
    ensures MapaReducer.ReduceValue(OneScene, RenameScene, h) == Ok(Renamed)
    ensures Renamed != OneScene
  {
    assert map["nome" := Str("a")]["nome" := Str("b")] == map["nome" := Str("b")];
    assert MapaReducer.EditaCena(OneScene.cenas, "nome", Str("b"), 0) == Renamed.cenas;
    MapaReducer.ReduceSceneEdit(OneScene, RenameScene, h);
    assert Renamed.cenas[0].props["nome"] != OneScene.cenas[0].props["nome"];
  }

  /**
   * A scene edit that undo does not take back: the store holds `OneScene`, the
   * scene is renamed, and undo finds the recorded object already renamed.
   */
  method SceneEditSurvivesUndo(h: MapaReducer.Helpers) returns (before: Ctx, restored: Ctx)
    ensures before == OneScene
    ensures restored == Renamed
    ensures restored != before
  {
    before := OneScene;
    var doc := MapaReducer.NovoDocumento(before);
    var past, next := DispatchByReference([], doc, RenameScene, h);
    // undo: the last recorded object comes back as the present one
    restored := past[|past| - 1].Value();
    RenameSceneResult(h);
    MapaReducer.MutatedIsResult(OneScene, RenameScene, h);
  }

  /** The same edit through the store over values: undo gives back the document as it was. */
  lemma SceneEditUndoneOnValues(h: MapaReducer.Helpers, now: int, sceneId: string)
    ensures DispatchStep(AppReducer(h), Fresh(OneScene), RenameScene, now, sceneId) == Ok(UndoState([OneScene], Renamed, []))
    ensures UndoStep(UndoState([OneScene], Renamed, [])).present == OneScene
  {
    RenameSceneResult(h);
  }
}
