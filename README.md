# JeliMaps document core, in Dafny

JeliMaps is a browser editor for maps that change along a timeline. A user places markers, polygons, lines, circles and image overlays on a Leaflet map and groups them into scenes (`cenas`), each one spanning a time range. This project models the core of the editor and proves properties of that model. The core modelled here:

- **The document reducer** (`mapaReducer`, MapaDispatchEvents.ts). The model has each case's returned document as a function on values. The cases that first write into the old document (and into the scene array that its shallow copies share) have two parts: a function for the state the old object is left in, and a heap model (`Documento`, `Conteudo`) where those writes happen in place. Cases that delegate to MapaFunctionHelpers go through a `Helpers` parameter.
- **The Zustand store** (mapaStore.ts). This is a class with `context` and `undoState` fields. It has dispatch with a 50-entry history, `use-undo`, reset, undo/redo, canUndo/canRedo, clearStore and rehydration. Each method is tied to a step function on values, and the undo/redo laws are proved about those functions.
- **selecionarElementoHelper.** It builds the viewport used to focus an element: scene bounds, marker coordinates, element bounds, GeoJSON bounds, in that order. It also builds the `selecionarElementoFoco` action.
- **contarPontosHelper.** It counts a polygon's points (a method with a loop, proved equal to a counting function), decides whether a polygon is "large" (more than 2000 points), and builds the tooltip text.
- **nominatimService.** It converts GeoJSON to Leaflet `[lat, lng]` pairs. It also sets the query parameters of `search` and `getDetails`.
- **indexedDBStorage.** `cleanObjectForStorage` is recursive methods with loops, proved equal to a cleaning function. `restoreRequiredFunctions` puts `snap` back. It is proved that cleaning what was restored gives back what was loaded.
- **ListaElementos.** This is the panel's element list (a method with a loop per group), the chip colours (`getChipColor`), and selection toggle, select-all and delete-selected.
- **SearchBox.** This covers how a result is labelled (`formatDisplayName`, `getPlaceType`), the three-character search guard, the no-options text, and what selecting a result does.
- **AddMarker.** `isControlLeafLet` walks up the DOM; it is proved equal to a reading of the ancestor chain. Also modelled: which handlers the current tool installs, and what a click dispatches.

JavaScript semantics are modelled where the code relies on them:

- Truthiness, `||` and `??`.
- A missing property reads as `undefined`.
- Comparisons of moments: an invalid moment compares false.
- Raw `<=` between scene bounds and element starts.
- `includes`, `split`/`join`/`trim` and number-to-string conversion.
- `str.length` in UTF-16 code units.
- The TypeErrors thrown by reading through `undefined` or `null`, and by writing a property of a primitive. These are `Err` results.

The `alteraPropriedadeCena` guard `action.indiceElemento < cenas.length - 2` is modelled as written. The next scene's start follows a scene's end only while the index is below `length - 2`, so editing the end of the second-to-last scene does not move the last scene's start (`MapaReducer.EditaCena`).

## Model

| member | source | states |
|---|---|---|
| MapaReducer.ModoVisao | src/components/Mapa/context/MapaDispatchEvents.ts:15-17 | `modoVisao` becomes `action.tipo`; every other property, the options, scenes and groups are unchanged |
| MapaReducer.AlteraPropriedadesMapa | src/components/Mapa/context/MapaDispatchEvents.ts:18-25 | center/zoom/bounds are read from the Leaflet map (undefined without one); nothing else changes |
| MapaReducer.PropriedadeToggle | src/components/Mapa/context/MapaDispatchEvents.ts:74-79 | `slidePropriedade` becomes the boolean negation of its truthiness; nothing else changes |
| MapaReducer.PropriedadeToggleTwice | src/components/Mapa/context/MapaDispatchEvents.ts:74-79 | toggling a boolean flag twice gives back the original document |
| MapaReducer.TrocaMapaContext | src/components/Mapa/context/MapaDispatchEvents.ts:98-102 | the result is `action.mapContext` when given, else the old document |
| MapaReducer.AtualizaTempoMutacao | src/components/Mapa/context/MapaDispatchEvents.ts:104-116 | the write into the old document touches only center/zoom/bounds |
| MapaReducer.AtualizaTempo | src/components/Mapa/context/MapaDispatchEvents.ts:103-118 | `tempo` becomes `action.time ?? tempo`; the viewport is copied from the first scene holding the new time but not the old one; with none, the viewport is unchanged; nothing else changes |
| MapaReducer.AlteraPropriedadeGeralMutacao | src/components/Mapa/context/MapaDispatchEvents.ts:120-128 | `cenaInicio`/`cenaFim` write the first scene's start / the last scene's end, and throw when there is no scene; other keys change no scene |
| MapaReducer.AlteraPropriedadeGeral | src/components/Mapa/context/MapaDispatchEvents.ts:119-130 | a "cena" key with an invalid form returns the old document; otherwise the key is set to `valor`, `cenaInicio`/`cenaFim` also move scene 0's start / the last scene's end, and options and groups are unchanged |
| MapaReducer.AlteraTimelineOptionsMutacao | src/components/Mapa/context/MapaDispatchEvents.ts:132-135 | only `tempo` of the old document may change |
| MapaReducer.AlteraPropriedadeTimelineOptions | src/components/Mapa/context/MapaDispatchEvents.ts:131-141 | exactly `timelineOptions[tipo]` becomes `valor`; switching `showCurrentTime` on resets `tempo` to `cenaInicio`, otherwise the properties are unchanged |
| MapaReducer.InserindoNovaCenaMutacao | src/components/Mapa/context/MapaDispatchEvents.ts:143-144 | the new scene is pushed onto the old document's scenes |
| MapaReducer.InserindoNovaCena | src/components/Mapa/context/MapaDispatchEvents.ts:142-149 | exactly one scene is appended, and `cenaFim` becomes that scene's end; nothing else changes |
| MapaReducer.EditaCena | src/components/Mapa/context/MapaDispatchEvents.ts:155-170 | scene i gets `tipo := valor`; a start at i > 0 also sets the previous scene's end; an end at i < length-2 also sets the next scene's start; every other scene is unchanged |
| MapaReducer.AlteraPropriedadeCena | src/components/Mapa/context/MapaDispatchEvents.ts:150-173 | an invalid form returns the old document; a missing form, `tipo` or scene throws; otherwise the scenes are as `EditaCena` says and nothing outside them changes |
| MapaReducer.FixarCena | src/components/Mapa/context/MapaDispatchEvents.ts:174-184 | throws exactly when no scene has `action.id`; otherwise the first such scene takes the document's center/zoom/bounds and the other scenes are unchanged |
| MapaReducer.ReduceValue | src/components/Mapa/context/MapaDispatchEvents.ts:185-187 | the unknown-action error is thrown exactly for action types with no case |
| MapaReducer.MutatedSharesScenes | src/components/Mapa/context/MapaDispatchEvents.ts:119-184 | after a scene write the old document holds the same scenes as the result |
| MapaReducer.Mutated | src/components/Mapa/context/MapaDispatchEvents.ts:103-184 | the old document after the call: only its viewport, `tempo` and scenes can have changed; its options, groups and other properties never do; only a scene insertion changes the number of scenes |
| MapaReducer.Reduzir | src/components/Mapa/context/MapaDispatchEvents.ts:5-189 | on objects: returns the document `ReduceValue` gives (or its error), leaves the old object as `Mutated` says, and the shallow-copy cases share `conteudo` with it |
| MapaReducer.AlteraPropriedadeGeralInPlace | src/components/Mapa/context/MapaDispatchEvents.ts:119-130 | the in-place case returns what `AlteraPropriedadeGeral` gives and leaves the old object as `Mutated` says |
| MapaReducer.AlteraPropriedadeCenaInPlace | src/components/Mapa/context/MapaDispatchEvents.ts:150-173 | the in-place case returns what `AlteraPropriedadeCena` gives and leaves the old object as `Mutated` says |
| MapaStore.AppReducer | src/stores/mapaStore.ts:129-134 | the store's reducer is `mapaReducer` with the MapaFunctionHelpers given, taken to be the one of MapaDispatchEvents.ts |
| MapaStore.Last50 | src/stores/mapaStore.ts:142 | `slice(-50)` keeps the last min(50, n) entries |
| MapaStore.DefaultTimelineOptions | src/stores/mapaStore.ts:71-93 | start now, end ten minutes later, current time hidden, a `snap` function |
| MapaStore.InitialContext | src/stores/mapaStore.ts:42-95 | one scene spanning the document's first minute with the given id, the time inside it, no elements, default options |
| MapaStore.Fresh | src/stores/mapaStore.ts:102-108 | a history with nothing to undo or redo |
| MapaStore.NextContext | src/stores/mapaStore.ts:117-136 | `reset` gives the supplied document with the default options overlaid by its own, or the initial one; `use-undo` reduces as `trocaMapaContext`; any other action goes to the reducer |
| MapaStore.DispatchStep | src/stores/mapaStore.ts:111-157 | the present becomes the next document; a normal dispatch appends the old present to the kept 50 and empties the future; `use-undo` leaves past and future alone; a thrown error is passed on |
| MapaStore.UndoStep | src/stores/mapaStore.ts:172-188 | empty past: no change; otherwise the last past entry comes back and the present goes to the front of the future |
| MapaStore.RedoStep | src/stores/mapaStore.ts:190-206 | empty future: no change; otherwise the first future entry comes back and the present goes to the end of the past |
| MapaStore.DispatchKeepsBound | src/stores/mapaStore.ts:138-147 | a dispatch keeps the past at 50 entries or fewer |
| MapaStore.UndoRedoKeepBound | src/stores/mapaStore.ts:172-206 | undo and redo keep the history within its bound |
| MapaStore.RedoAfterUndo | src/stores/mapaStore.ts:172-206 | undo then redo restores the whole history |
| MapaStore.UndoAfterRedo | src/stores/mapaStore.ts:172-206 | redo then undo restores the whole history |
| MapaStore.UndoAfterDispatch | src/stores/mapaStore.ts:138-147 | undoing a dispatch gives back the old present, with the dispatched document as the only future |
| MapaStore.UndoRedoEffect | src/stores/mapaStore.ts:172-216 | undo changes something iff `canUndo`, redo iff `canRedo` |
| MapaStore.UseUndoSwapsPresent | src/stores/mapaStore.ts:127-132 | a `use-undo` dispatch replaces the present by the supplied document and leaves the history alone |
| MapaStore.Store.constructor | src/stores/mapaStore.ts:102-108 | the shown document and the history's present come from two initial documents |
| MapaStore.Store.Dispatch | src/stores/mapaStore.ts:111-157 | the history moves as `DispatchStep` says, and the shown document is the new present; a thrown error leaves the store unchanged |
| MapaStore.Store.Reset | src/stores/mapaStore.ts:159-170 | the supplied or a new initial document, with an empty past and future |
| MapaStore.Store.ClearStore | src/stores/mapaStore.ts:225-235 | a new initial document, with an empty past and future |
| MapaStore.Store.Undo | src/stores/mapaStore.ts:172-188 | the history moves as `UndoStep` says and the shown document follows it |
| MapaStore.Store.Redo | src/stores/mapaStore.ts:190-206 | the history moves as `RedoStep` says and the shown document follows it |
| MapaStore.Store.CanUndo | src/stores/mapaStore.ts:208-211 | true iff the past is nonempty |
| MapaStore.Store.CanRedo | src/stores/mapaStore.ts:213-216 | true iff the future is nonempty |
| MapaStore.Store.Rehydrate | src/stores/mapaStore.ts:245-254 | a restored document becomes the present with an empty past and future |
| MapaStore.DispatchByReference | src/stores/mapaStore.ts:138-147 | the store keeps the very object the reducer wrote into as the last past entry (the as-written aliasing that Store.Dispatch, on values, does not have) |
| MapaStore.RenameSceneResult | src/components/Mapa/context/MapaDispatchEvents.ts:150-173 | renaming scene 0 gives a different document |
| MapaStore.SceneEditSurvivesUndo | src/stores/mapaStore.ts:138-188 | as written, undoing a scene edit gives back the edited document |
| MapaStore.SceneEditUndoneOnValues | src/stores/mapaStore.ts:138-188 | with values instead of a shared object, undo gives back the document before the edit |
| SelecionarElemento.CenaDoElemento | src/components/Mapa/MapaUtils/selecionarElementoHelper.ts:14-25 | the first scene of `mapaContextAtual.cenas` holding the element's start, looked up only when that start is truthy |
| SelecionarElemento.LatLngOf | src/components/Mapa/MapaUtils/selecionarElementoHelper.ts:34-37 | `LatLng(coords[0], coords[1])`; throws unless both are numbers |
| SelecionarElemento.Centro | src/components/Mapa/MapaUtils/selecionarElementoHelper.ts:32-63 | `latLngBounds(b._northEast, b._southWest).getCenter()`: a first corner that is itself a bounds is the bounds, and the second is ignored; otherwise it throws unless both corners are present and add a point, and gives the centre of the box around the points |
| SelecionarElemento.CentroDaCaixa | src/components/Mapa/MapaUtils/selecionarElementoHelper.ts:47-50 | a Leaflet bounds is centred on the midpoint of its corners |
| SelecionarElemento.CentroDeArrayFalha | src/components/Mapa/MapaUtils/selecionarElementoHelper.ts:31-33 | an array used as bounds, as the Marker case stores coordinates, has no corners, so taking its centre throws |
| SelecionarElemento.MontarMapContext | src/components/Mapa/MapaUtils/selecionarElementoHelper.ts:8-88 | no element: the context unchanged; a Marker with truthy coordinates: scene bounds or its coordinates, zoom `cenaZoom \|\| zoom \|\| ctx.zoom`; otherwise scene bounds, then element bounds, then valid GeoJSON bounds, else unchanged; throws exactly when a Marker has no geometry, or the centre taken (of scene or element bounds, or the Marker's coordinates) cannot be; only center/zoom/bounds change |
| SelecionarElemento.MontarDispatch | src/components/Mapa/MapaUtils/selecionarElementoHelper.ts:96-111 | a `selecionarElementoFoco` action carrying the element, with `time` iff its start is truthy, and the built viewport |
| SelecionarElemento.AsWrittenIgnoresScenes | src/components/Studio/Propriedades/ListaElementos.tsx:191 | passing the store's document, which has no top-level `cenas`, is the same as passing no scenes |
| SelecionarElemento.CorrectedUsesScene | src/components/Mapa/MapaUtils/selecionarElementoHelper.ts:17-25 | with the document's own scenes, the first scene holding the element gives the bounds and the center; it fails exactly when that scene's bounds has no centre |
| SelecionarElemento.SceneBoundsIgnored | src/components/Mapa/MapaUtils/selecionarElementoHelper.ts:17-25 | a polygon inside a scene with bounds is focused on its own bounds as written, and on the scene's as corrected |
| ContarPontos.PontosDosAneis | src/components/Mapa/MapaUtils/contarPontosHelper.ts:17-21 | rings that are bare numbers count nothing |
| ContarPontos.PontosDosAneisConcat | src/components/Mapa/MapaUtils/contarPontosHelper.ts:17-21 | the count of two lists of rings is the sum of their counts |
| ContarPontos.Pontos | src/components/Mapa/MapaUtils/contarPontosHelper.ts:6-26 | 0 without coordinates, 0 for any non-Polygon, 0 for non-array coordinates |
| ContarPontos.ContarPontosCoordenadas | src/components/Mapa/MapaUtils/contarPontosHelper.ts:6-26 | the loop's total is `Pontos` |
| ContarPontos.PoligonoGrande | src/components/Mapa/MapaUtils/contarPontosHelper.ts:33-42 | false for anything but a Polygon; for a Polygon, true iff the counting loop finds more than 2000 points; a large polygon has array coordinates |
| ContarPontos.MaisAneisMantemGrande | src/components/Mapa/MapaUtils/contarPontosHelper.ts:17-21 | adding rings never makes a large polygon small; a polygon of two ring lists is large iff their counts add up to more than 2000 |
| ContarPontos.PoligonoDeUmAnel | src/components/Mapa/MapaUtils/contarPontosHelper.ts:14-23 | a one-ring polygon of n points counts n |
| ContarPontos.LimiteExato | src/components/Mapa/MapaUtils/contarPontosHelper.ts:41 | 2000 points is not large, 2001 is |
| ContarPontos.TooltipPoligonoGrande | src/components/Mapa/MapaUtils/contarPontosHelper.ts:49-61 | the fixed text with the count in decimal in its one slot |
| ContarPontos.TooltipDeterminaContagem | src/components/Mapa/MapaUtils/contarPontosHelper.ts:52 | different counts give different tooltips |
| Nominatim.Swap | src/services/nominatimService.ts:114 | `[coord[1], coord[0]]` |
| Nominatim.SwapRing | src/services/nominatimService.ts:119 | same length, each pair swapped |
| Nominatim.UnswapSwapRing | src/services/nominatimService.ts:117-120 | swapping a ring back gives the ring |
| Nominatim.GeoJsonToLeaflet | src/services/nominatimService.ts:110-130 | nothing for no geometry or another type; one pair for a Point; the swapped outer ring for a Polygon; one swapped outer ring per polygon for a MultiPolygon; a missing outer ring throws |
| Nominatim.PolygonRoundTrip | src/services/nominatimService.ts:117-120 | the outer ring can be read back from the conversion |
| Nominatim.SearchParams | src/services/nominatimService.ts:38-51 | query, JSON, limit (5 by default), language (pt-BR by default), polygon "1" unless `includePolygon` is false, threshold 0.0 |
| Nominatim.SearchLimitSent | src/services/nominatimService.ts:47 | different limits give different parameters |
| Nominatim.DetailsParams | src/services/nominatimService.ts:79-84 | place id, JSON, polygon "1", threshold 0.0 |
| Nominatim.DetailsPlaceSent | src/services/nominatimService.ts:80 | different places give different parameters |
| StorageClean.Kept | src/stores/indexedDBStorage.ts:33-51 | the kept properties are those not dropped, in order |
| StorageClean.Clean | src/stores/indexedDBStorage.ts:6-58 | primitives unchanged; a Date becomes its ISO string; a React element becomes null; throws iff an invalid Date is reached; the result is storable, and a storable value comes back unchanged |
| StorageClean.CleanList | src/stores/indexedDBStorage.ts:22-24 | same length, each element cleaned |
| StorageClean.CleanEntries | src/stores/indexedDBStorage.ts:32-57 | throws iff a kept property holds an invalid Date; the result is storable; a storable list is unchanged |
| StorageClean.CleanEntriesKeepsOrder | src/stores/indexedDBStorage.ts:32-57 | the result has exactly the kept keys, in order, each with its cleaned value |
| StorageClean.CleanIdempotent | src/stores/indexedDBStorage.ts:6-58 | cleaning twice is cleaning once |
| StorageClean.CleanObjectForStorage | src/stores/indexedDBStorage.ts:6-58 | the recursion with its `for...in` loop computes `Clean` |
| StorageClean.CleanArray | src/stores/indexedDBStorage.ts:22-24 | the element-wise loop computes `CleanList` |
| StorageClean.CleanProperties | src/stores/indexedDBStorage.ts:32-57 | the key-by-key loop computes `CleanEntries` |
| StorageClean.CleanListErrorStays | src/stores/indexedDBStorage.ts:23 | an error in a prefix is the error of the whole array |
| StorageClean.CleanEntriesErrorStays | src/stores/indexedDBStorage.ts:53 | an error in a prefix is the error of the whole object |
| StorageClean.SetEntry | src/stores/indexedDBStorage.ts:68 | the set key reads the new value, every other key reads as before, and a new key goes last |
| StorageClean.Restore | src/stores/indexedDBStorage.ts:61-74 | without `obj.context.timelineOptions` the value is unchanged; with object options `snap` is set and nothing else changes; a truthy primitive option value throws |
| StorageClean.RestoreThenClean | src/stores/indexedDBStorage.ts:105-125 | cleaning what was restored gives back what was loaded |
| StorageClean.RestoreSkipsEnvelope | src/stores/indexedDBStorage.ts:67 | a `{ state, version }` envelope comes back unchanged, without `snap` |
| ListaElementos.NomeNaLista | src/components/Studio/Propriedades/ListaElementos.tsx:53 | the element's name, or the type's word and the id |
| ListaElementos.ListaDoGrupo | src/components/Studio/Propriedades/ListaElementos.tsx:50-57 | one row per element of the group |
| ListaElementos.ListaDoGrupoItens | src/components/Studio/Propriedades/ListaElementos.tsx:50-57 | row i is element i with its list name, type and `visivel` |
| ListaElementos.AdicionarGrupo | src/components/Studio/Propriedades/ListaElementos.tsx:49-58 | the loop appends the group's rows, or nothing without the group |
| ListaElementos.GetAllElements | src/components/Studio/Propriedades/ListaElementos.tsx:45-109 | the list is `Elementos` |
| ListaElementos.ElementosPorGrupo | src/components/Studio/Propriedades/ListaElementos.tsx:45-109 | markers, then polygons, lines, circles and image overlays |
| ListaElementos.GrupoCompleto | src/components/Studio/Propriedades/ListaElementos.tsx:45-109 | the rows of a listed type are exactly that group's elements, in order |
| ListaElementos.SoGruposListados | src/components/Studio/Propriedades/ListaElementos.tsx:45-109 | only the five listed types appear, group by group in order, all visible |
| ListaElementos.ChipColor | src/components/Studio/Propriedades/ListaElementos.tsx:132-147 | "default" iff the type is not listed |
| ListaElementos.ChipColorInverse | src/components/Studio/Propriedades/ListaElementos.tsx:132-147 | a listed type's colour names that type back |
| ListaElementos.ChipColorInjective | src/components/Studio/Propriedades/ListaElementos.tsx:132-147 | different listed types have different colours |
| ListaElementos.Sem | src/components/Studio/Propriedades/ListaElementos.tsx:152 | the id is no longer in the selection; a selection without it is unchanged |
| ListaElementos.SemMultiset | src/components/Studio/Propriedades/ListaElementos.tsx:152 | every copy of the id is removed, and every other id is kept as often as it was |
| ListaElementos.SemConcat | src/components/Studio/Propriedades/ListaElementos.tsx:152 | filtering keeps the order of what is kept |
| ListaElementos.Toggle | src/components/Studio/Propriedades/ListaElementos.tsx:149-156 | a selected id leaves (every copy); an unselected one is appended |
| ListaElementos.ToggleTwiceAbsent | src/components/Studio/Propriedades/ListaElementos.tsx:149-156 | toggling an unselected id twice gives back the selection |
| ListaElementos.ToggleTwicePresent | src/components/Studio/Propriedades/ListaElementos.tsx:149-156 | toggling a selected id twice moves it, once, to the end |
| ListaElementos.SelectAll | src/components/Studio/Propriedades/ListaElementos.tsx:158-164 | clears a selection as long as the list, else selects all ids in list order |
| ListaElementos.SelectAllTwice | src/components/Studio/Propriedades/ListaElementos.tsx:158-164 | pressing it twice on a partial selection clears it |
| ListaElementos.RemoveElements | src/components/Studio/Propriedades/ListaElementos.tsx:174-177 | a `removeElements` action for the id |
| ListaElementos.MensagemConfirmacao | src/components/Studio/Propriedades/ListaElementos.tsx:171 | the fixed question with the count in decimal in its one slot |
| ListaElementos.MensagemDeterminaContagem | src/components/Studio/Propriedades/ListaElementos.tsx:171 | different counts give different confirmation texts |
| ListaElementos.DeleteSelected | src/components/Studio/Propriedades/ListaElementos.tsx:166-182 | nothing with no selection; otherwise a confirmation; on confirm one `removeElements` per selected id, in order, then an empty selection |
| SearchBox.FormatDisplayName | src/components/SearchBox/SearchBox.tsx:82-87 | `main` is the trimmed text before the first comma; `details` is the trimmed text between the first and third commas, empty with no comma |
| SearchBox.DetailsAreTheNextTwoParts | src/components/SearchBox/SearchBox.tsx:85 | parts 2-3 re-joined are the text between the first and third commas |
| SearchBox.GetPlaceType | src/components/SearchBox/SearchBox.tsx:61-79 | the label of the type, else of the class, else "Local" |
| SearchBox.PlaceTypeLocalIff | src/components/SearchBox/SearchBox.tsx:78 | "Local" iff neither the type nor the class is known |
| SearchBox.CityAndTown | src/components/SearchBox/SearchBox.tsx:65-66 | city and town are both "Cidade" |
| SearchBox.Utf16Length | src/components/SearchBox/SearchBox.tsx:35 | `length` counts UTF-16 units, at least one per character |
| SearchBox.FetchLocations | src/components/SearchBox/SearchBox.tsx:34-46 | shorter than 3: clear, no search; else search that query with limit 8 and polygons |
| SearchBox.SearchFromBox | src/components/SearchBox/SearchBox.tsx:42-45 | the request carries the query, limit 8, pt-BR and polygons |
| SearchBox.NoOptionsText | src/components/SearchBox/SearchBox.tsx:175-179 | the "at least 3 characters" text iff the input is shorter than 3 |
| SearchBox.NoOptionsTextMatchesGuard | src/components/SearchBox/SearchBox.tsx:35-38 | the box asks for more characters exactly when it does not search |
| SearchBox.OnChange | src/components/SearchBox/SearchBox.tsx:107-112 | a value is reported and the input reset to ""; no value changes nothing |
| SearchBox.SelectionResetsBox | src/components/SearchBox/SearchBox.tsx:107-112 | after a selection there is no search and the "3 characters" text shows |
| AddMarker.IsControlLeafLet | src/components/Mapa/AddMarker.ts:5-17 | path/svg/object class defers to the parent (a missing one throws); "leaflet-control" gives true, then "leaflet-container" false, then the parent, or false at the root |
| AddMarker.Ancestors | src/components/Mapa/AddMarker.ts:9-15 | the chain starts at the node |
| AddMarker.WalkMatchesAncestors | src/components/Mapa/AddMarker.ts:5-17 | the walk's answer is the verdict of the nearest ancestor-or-self that has one |
| AddMarker.ControlIff | src/components/Mapa/AddMarker.ts:5-17 | true iff some ancestor-or-self names a control and no nearer node decides |
| AddMarker.InteragirMapa | src/components/Mapa/AddMarker.ts:23-40 | a click handler exactly for the Marker tool; undefined otherwise |
| AddMarker.HandlersDaFerramenta | src/components/Mapa/AddMarker.ts:42-48 | the click handler iff the Marker tool is current; no tool or the Hand: no handlers |
| AddMarker.AddMarkerAction | src/components/Mapa/AddMarker.ts:29-33 | `addMarker` with the tool as `tipo` and the click position |
| AddMarker.Click | src/components/Mapa/AddMarker.ts:27-34 | no dispatch inside a control; one `addMarker` outside; a failing walk throws |
| AddMarker.MarkerClick | src/components/Mapa/AddMarker.ts:23-48 | with the Marker tool, a click adds a marker exactly when the ancestor chain shows no control |

## Left out

- MapaFunctionHelpers (the add, remove, select, edit and timeline cases) and `novaCena` are not part of this model. The reducer calls them through the `Helpers` parameter, so those cases say only which helper gets which arguments. The helpers see the whole action: the fields the reducer itself does not read (`group`, `ids`, `elementos`, `nomeElemento`, `nomePropriedade`, `valorPropriedade`, `valorBooleano`, `start`, `end`) are kept in `Action.outros`, and `editarPropriedade` passes `tipo`, `id`, `nomePropriedade` and `valorPropriedade` to its helper one by one, as the source does.
- MapaReducer.Mutated and MapaReducer.Reduzir: the helpers receive `oldMapaContext` itself, and their code is not part of this model. Both members assume that a delegated case leaves the old document untouched. Any in-place write a helper makes is not captured.
- MapaReducer.AlteraPropriedadeGeral: the computed key `[action.tipo]` is written among the scalar properties. A `tipo` of "timelineOptions" or "conteudo" would replace the options object, or the scenes and groups, in the source. Those two keys are not modelled, and for them the contract's "options, groups and scenes unchanged" does not describe the source. The same holds for MapaReducer.AlteraPropriedadeGeralInPlace.
- MapaStore.AppReducer: the store imports `mapaReducer` from src/components/Mapa/MapaEventDispatcher, which is not part of this model. The model assumes that module is, or re-exports, the `mapaReducer` of MapaDispatchEvents.ts. The first finding below rests on that assumption.
- MapaStore.Store.Dispatch: works on values, so the history holds independent documents. This is the corrected behaviour. The aliasing of the source, where the "before" entry is the object the reducer wrote into, is modelled separately by MapaStore.DispatchByReference.
- The `console.log` calls of the reducer (MapaDispatchEvents.ts:9-13) and of `reset` (mapaStore.ts:169) are console output and are dropped.
- `formik` is modelled as `Option<bool>`: None is a missing `formik`, which throws, and otherwise the truthiness of `isValid`. Both uses read `!action.formik.isValid`, so an undefined `isValid` acts exactly like `false`.
- MapaTypes.RawLe: a timestamp is modelled as the instant it denotes, not as its string. Comparing a timestamp with another string therefore gives false. In the source both are strings and compare lexically.
- Leaflet's `GeoJSON(...).getBounds()` and `isValid()` are work in a foreign library, given as the `Geo` parameter. Coordinates are exact reals, not floating point.
- SelecionarElemento.Centro: a corner is converted as a LatLng, a bounds, a `{ lat, lng }` object of numbers or a two- or three-number array. A corner given as a string, as numeric strings, with `lon` instead of `lng`, or as a nested array of points is taken to add no point, and a missing second corner throws unless the first corner is itself a bounds, which Leaflet takes as the whole bounds. Leaflet handles some of these differently.
- `Date.now()`/moment and uuid: the clock and the new scene id are parameters, and times are integers.
- MapaTypes.Moment: an undefined or non-time value is an invalid moment, so every comparison with it is false. `moment(undefined)` in the source is the current time, which the model does not have.
- MapaStore.Store.constructor: `context` and `undoState.present` come from two separate `createInitialContext()` calls, each with its own clock reading and id. The constructor therefore takes two clock readings and ids, and it establishes `Valid()` only when they coincide.
- The persist layer (`partialize`, the `{ state, version }` envelope, IndexedDB `openDB`/`getItem`/`setItem`, the migration helper) is browser I/O. `StorageClean.RestoreSkipsEnvelope` states only what `restoreRequiredFunctions` does when given the envelope.
- StorageClean.Restore: modelled on values. The source writes `snap` into the loaded object in place; any aliasing of that object is not captured.
- StorageClean.Clean: `for...in` also visits inherited enumerable properties that `hasOwnProperty` then skips. Only own properties are modelled. Keys with special meaning, such as `__proto__`, are treated as ordinary.
- SearchBox.GetPlaceType: `typeMap` is an object literal, so a type such as "constructor" or "toString" reads an inherited function. Only the listed keys are modelled.
- The debounce, the asynchronous request, the loading flag, `open` and the rendering (`renderOption`, `getOptionLabel`, the "Fronteiras" chip) in SearchBox.tsx are React state and presentation.
- `fetch` and `response.json()` in nominatimService.ts are network I/O. Only the parameters and the GeoJSON conversion are modelled.
- AddMarker.InteragirMapa: for tools other than the Marker tool, `undefined` is passed to `useMapEvents`. Leaflet's handling of that is not part of this model. The Marker and Hand tool names live in a constants file that is not part of this model, so they are parameters.
- ListaElementos: `getIconByType` picks icons. `handleSelectElement` forwards to `montarDispatchSelecionarElemento`, which is modelled in SelecionarElemento. The confirmation dialog is reduced to the user's answer, the `confirmado` parameter.
- Concurrency between store updates is not modelled: `set` is atomic here.
- `getInitialContext` is `MapaStore.InitialContext`. `hasStoredContext` is left out: the modelled store always holds a document, never `null` or `undefined`, so it would always be true.

## Findings

| source | as written | input that shows it | evidently intended | confidence | as-written member | corrected member |
|---|---|---|---|---|---|---|
| src/stores/mapaStore.ts:138-147 | the store keeps the old present object itself as the last past entry, while the reducer has already written the scene edit into that object and its shared `conteudo.cenas`. This assumes the store's `mapaReducer`, imported from MapaEventDispatcher, is the one of MapaDispatchEvents.ts | a document whose one scene is named "a", then `alteraPropriedadeCena` renaming it to "b" with a valid form, then `undo` | undo gives back the document as it was before the edit | not executed; rests on the MapaStore.AppReducer assumption | MapaStore.SceneEditSurvivesUndo | MapaStore.SceneEditUndoneOnValues |
| src/components/Mapa/MapaUtils/selecionarElementoHelper.ts:17-18 | the helper looks for scenes at `mapaContextAtual.cenas`, but the documents its callers pass keep their scenes at `conteudo.cenas`, so scene bounds and zoom are never used | a polygon with its own bounds whose start lies in the document's one scene, which has bounds (`Quadra`, `ComUmaCena`) | the element is focused on the bounds of the scene it starts in | not executed | SelecionarElemento.SceneBoundsIgnored | SelecionarElemento.CorrectedUsesScene |
