/**
 * src/components/Mapa/AddMarker.ts: whether a click landed on a Leaflet
 * control (`isControlLeafLet`, a walk up the DOM from the clicked node) and
 * which map event handlers the current tool installs (`interagirMapa` and the
 * choice passed to `useMapEvents`). The names of the Marker and Hand tools
 * come from a constants file that is not part of this model and are
 * parameters here.
 */
module AddMarker {
  import opened JsCore
  import opened JsText
  import opened MapaTypes

  /** `node.className`: a string on HTML elements, an object (SVGAnimatedString, or null) on SVG ones, or undefined. */
  datatype ClassName = ClassString(s: string) | ClassObject | ClassUndefined

  /** What the walk throws: reading the tag of a missing parent, or `includes` of an undefined class. */
  const ParentMissing := TypeError("Cannot read properties of null (reading 'tagName')")
  const ClassMissing := TypeError("Cannot read properties of undefined (reading 'includes')")

  /** A DOM node with its chain of `parentElement`s. */
  datatype DomNode = DomNode(tagName: string, className: ClassName, parentElement: Option<DomNode>)

  /** The node defers to its parent: an SVG `path` or `svg`, or any node whose class is not a string. */
  predicate Defers(n: DomNode) {
    n.tagName == "path" || n.tagName == "svg" || n.className.ClassObject?
  }

  /**
   * `isControlLeafLet(node)`. A deferring node asks its parent, and reading
   * the tag of a missing parent throws. Otherwise a class containing
   * "leaflet-control" answers true, then one containing "leaflet-container"
   * answers false, then the parent is asked, and a node without a parent
   * answers false. Reading `includes` of an undefined class throws.
   */
  function IsControlLeafLet(node: Option<DomNode>): (r: Result<bool>)
    ensures node.None? ==> r.Err?
    ensures node.Some? && Defers(node.value) ==> r == IsControlLeafLet(node.value.parentElement)
    ensures node.Some? && !Defers(node.value) && node.value.className.ClassUndefined? ==> r.Err?
    ensures node.Some? && !Defers(node.value) && node.value.className.ClassString? ==>
              var c := node.value.className.s;
              && (Contains(c, "leaflet-control") ==> r == Ok(true))
              && (!Contains(c, "leaflet-control") && Contains(c, "leaflet-container") ==> r == Ok(false))
              && (!Contains(c, "leaflet-control") && !Contains(c, "leaflet-container") ==>
                    r == if node.value.parentElement.Some? then IsControlLeafLet(node.value.parentElement) else Ok(false))
    decreases node
  {
    if node.None? then Err(ParentMissing)
    else
      var n := node.value;
      if Defers(n) then IsControlLeafLet(n.parentElement)
      else match n.className
        case ClassUndefined => Err(ClassMissing)
        case ClassString(c) =>
          if Contains(c, "leaflet-control") then Ok(Contains(c, "leaflet-control"))
          else if Contains(c, "leaflet-container") then Ok(!Contains(c, "leaflet-container"))
          else if n.parentElement.Some? then IsControlLeafLet(n.parentElement)
          else Ok(false)
  }

  /** The node and its ancestors, nearest first. */
  function Ancestors(n: DomNode): (a: seq<DomNode>)
    ensures |a| >= 1 && a[0] == n
    decreases n
  {
    [n] + if n.parentElement.Some? then Ancestors(n.parentElement.value) else []
  }

  /** What a single node decides on its own, if anything. */
  function Verdict(n: DomNode): Option<Result<bool>> {
    if Defers(n) then None
    else match n.className
      case ClassUndefined => Some(Err(ClassMissing))
      case ClassString(c) =>
        if Contains(c, "leaflet-control") then Some(Ok(true))
        else if Contains(c, "leaflet-container") then Some(Ok(false))
        else None
      case ClassObject => None
  }

  /**
   * The answer read off the chain of ancestors: the verdict of the nearest
   * node that has one; with none, the walk ends at the root, which throws if
   * it defers and answers false otherwise.
   */
  function PorAncestrais(chain: seq<DomNode>): Result<bool>
    requires |chain| >= 1
  {
    if Verdict(chain[0]).Some? then Verdict(chain[0]).value
    else if |chain| == 1 then (if Defers(chain[0]) then Err(ParentMissing) else Ok(false))
    else PorAncestrais(chain[1..])
  }

  /** The walk gives the answer of the nearest ancestor-or-self with a verdict. */
  lemma {:induction false} WalkMatchesAncestors(n: DomNode)
    ensures IsControlLeafLet(Some(n)) == PorAncestrais(Ancestors(n))
    decreases n
  {
    var a := Ancestors(n);
    if n.parentElement.Some? {
      var p := n.parentElement.value;
      assert a[1..] == Ancestors(p);
      WalkMatchesAncestors(p);
    }
  }

  /**
   * A click counts as on a control exactly when some ancestor-or-self is a
   * non-deferring node whose class names a Leaflet control, and no nearer
   * non-deferring node has an undefined class or a class naming the map container.
   */
  lemma {:induction false} ControlIff(chain: seq<DomNode>)
    requires |chain| >= 1
    ensures PorAncestrais(chain) == Ok(true) <==>
              exists k :: 0 <= k < |chain| && Verdict(chain[k]) == Some(Ok(true))
                && forall j :: 0 <= j < k ==> Verdict(chain[j]).None?
  {
    if Verdict(chain[0]).None? && |chain| > 1 {
      ControlIff(chain[1..]);
      if PorAncestrais(chain) == Ok(true) {
        var k :| 0 <= k < |chain| - 1 && Verdict(chain[1..][k]) == Some(Ok(true))
                && forall j :: 0 <= j < k ==> Verdict(chain[1..][j]).None?;
        assert Verdict(chain[k + 1]) == Some(Ok(true));
        assert forall j :: 0 <= j < k + 1 ==> Verdict(chain[j]).None? by {
          forall j | 0 <= j < k + 1
            ensures Verdict(chain[j]).None?
          {
            if j > 0 {
              assert chain[j] == chain[1..][j - 1];
            }
          }
        }
      }
      if exists k :: 0 <= k < |chain| && Verdict(chain[k]) == Some(Ok(true))
           && forall j :: 0 <= j < k ==> Verdict(chain[j]).None? {
        var k :| 0 <= k < |chain| && Verdict(chain[k]) == Some(Ok(true))
                && forall j :: 0 <= j < k ==> Verdict(chain[j]).None?;
        assert k > 0;
        assert Verdict(chain[1..][k - 1]) == Some(Ok(true));
        assert forall j :: 0 <= j < k - 1 ==> Verdict(chain[1..][j]).None? by {
          forall j | 0 <= j < k - 1
            ensures Verdict(chain[1..][j]).None?
          {
            assert chain[1..][j] == chain[j + 1];
          }
        }
      }
    }
  }

  /** The handlers `interagirMapa` returns for the Marker tool: a `click` that may add a marker. */
  datatype Handlers = NoHandlers | ClickAddsMarker(tool: string)

  /** `interagirMapa(nomeElemento)`: a click handler for the Marker tool; `undefined` (None) for any other tool. */
  function InteragirMapa(nomeElemento: Val, marker: string): (h: Option<Handlers>)
    ensures h.Some? <==> nomeElemento == Str(marker)
    ensures h.Some? ==> h.value == ClickAddsMarker(marker)
  {
    if nomeElemento == Str(marker) then Some(ClickAddsMarker(nomeElemento.s)) else None
  }

  /** `elementoInteracao.nome`. */
  function NomeDaFerramenta(elementoInteracao: Val): Val {
    if elementoInteracao.Record? then Get(elementoInteracao.fields, "nome") else Undefined
  }

  /**
   * What `useMapEvents` receives: with a current tool that has a name other
   * than the Hand's, whatever `interagirMapa` gives for it; otherwise no handlers.
   */
  function HandlersDaFerramenta(elementoInteracao: Val, marker: string, hand: string): (h: Option<Handlers>)
    ensures h == Some(ClickAddsMarker(marker)) <==>
              (NomeDaFerramenta(elementoInteracao) == Str(marker) && marker != "" && marker != hand)
    ensures !Truthy(NomeDaFerramenta(elementoInteracao)) || NomeDaFerramenta(elementoInteracao) == Str(hand) ==>
              h == Some(NoHandlers)
  {
    var nome := NomeDaFerramenta(elementoInteracao);
    if Truthy(elementoInteracao) && Truthy(nome) && nome != Str(hand) then InteragirMapa(nome, marker)
    else Some(NoHandlers)
  }

  /** The `addMarker` action a click at `latlng` dispatches. */
  function AddMarkerAction(tool: string, latlng: Val): (a: Action)
    ensures a.kind == "addMarker" && a.tipo == Some(tool) && a.posicao == latlng
  {
    ActionOf("addMarker").(tipo := Some(tool), posicao := latlng)
  }

  /**
   * A click at `latlng` on `target` under the installed handlers: the actions
   * dispatched (none, or one `addMarker` when the target is not inside a
   * control), or what the walk throws.
   */
  function Click(h: Handlers, target: DomNode, latlng: Val): (r: Result<seq<Action>>)
    ensures h.NoHandlers? ==> r == Ok([])
    ensures h.ClickAddsMarker? && IsControlLeafLet(Some(target)) == Ok(true) ==> r == Ok([])
    ensures h.ClickAddsMarker? && IsControlLeafLet(Some(target)) == Ok(false) ==>
              r == Ok([AddMarkerAction(h.tool, latlng)])
    ensures h.ClickAddsMarker? && IsControlLeafLet(Some(target)).Err? ==> r.Err?
  {
    match h
    case NoHandlers => Ok([])
    case ClickAddsMarker(tool) =>
      var inControl := IsControlLeafLet(Some(target));
      if inControl.Err? then Err(inControl.error)
      else if inControl.value then Ok([])
      else Ok([AddMarkerAction(tool, latlng)])
  }

  /**
   * With the Marker tool, a click adds a marker of that tool at the clicked
   * position exactly when no ancestor-or-self of the target marks a Leaflet
   * control before the walk stops.
   */
  lemma MarkerClick(elementoInteracao: Val, marker: string, hand: string, target: DomNode, latlng: Val)
    requires NomeDaFerramenta(elementoInteracao) == Str(marker) && marker != "" && marker != hand
    ensures HandlersDaFerramenta(elementoInteracao, marker, hand) == Some(ClickAddsMarker(marker))
    ensures Click(ClickAddsMarker(marker), target, latlng) ==
              match PorAncestrais(Ancestors(target))
              case Err(e) => Err(e)
              case Ok(inControl) => if inControl then Ok([]) else Ok([AddMarkerAction(marker, latlng)])
  {
    WalkMatchesAncestors(target);
  }
}
