/**
 * src/components/Mapa/MapaUtils/contarPontosHelper.ts: how many coordinate
 * points an element's polygon has, whether that makes it a "large polygon"
 * (whose vertices the map does not let the user edit), and the tooltip that
 * says so.
 */
module ContarPontos {
  import opened JsCore
  import opened JsText
  import opened MapaTypes

  /** The threshold above which a polygon is large. */
  const LimitePontos := 2000

  /** `!elemento?.geometry?.coordinates`: no element, no geometry, or falsy coordinates (a zero). */
  predicate SemCoordenadas(el: Option<Elemento>) {
    || el.None?
    || el.value.geometry.None?
    || el.value.geometry.value.coordinates.None?
    || el.value.geometry.value.coordinates.value == Scalar(0.0)
  }

  /** The points of the rings that are arrays; a ring that is a bare number counts nothing. */
  function PontosDosAneis(rings: seq<Coords>): (n: nat)
    ensures n == 0 <== forall k :: 0 <= k < |rings| ==> rings[k].Scalar?
  {
    if rings == [] then 0
    else PontosDosAneis(rings[..|rings| - 1]) + (if rings[|rings| - 1].Nested? then |rings[|rings| - 1].items| else 0)
  }

  /** Counting the rings of two lists of rings one after the other adds up their counts. */
  lemma {:induction false} PontosDosAneisConcat(a: seq<Coords>, b: seq<Coords>)
    ensures PontosDosAneis(a + b) == PontosDosAneis(a) + PontosDosAneis(b)
    decreases |b|
  {
    if b == [] {
      assert a + b == a;
    } else {
      assert (a + b)[..|a + b| - 1] == a + b[..|b| - 1];
      PontosDosAneisConcat(a, b[..|b| - 1]);
    }
  }

  /** The count `contarPontosCoordenadas` promises: the points of a Polygon's array rings, and 0 for anything else. */
  function Pontos(el: Option<Elemento>): (n: nat)
    ensures SemCoordenadas(el) ==> n == 0
    ensures el.Some? && el.value.geometry.Some? && el.value.geometry.value.kind != "Polygon" ==> n == 0
    ensures !SemCoordenadas(el) && el.value.geometry.value.kind == "Polygon" && el.value.geometry.value.coordinates.value.Scalar? ==> n == 0
  {
    if SemCoordenadas(el) then 0
    else
      var g := el.value.geometry.value;
      if g.kind == "Polygon" && g.coordinates.value.Nested? then PontosDosAneis(g.coordinates.value.items) else 0
  }

  /** `contarPontosCoordenadas(elemento)`: adds up the ring lengths one ring at a time. */
  method ContarPontosCoordenadas(el: Option<Elemento>) returns (totalPoints: nat)
    ensures totalPoints == Pontos(el)
  {
    if SemCoordenadas(el) {
      return 0;
    }
    var g := el.value.geometry.value;
    totalPoints := 0;
    if g.kind == "Polygon" {
      if g.coordinates.value.Nested? {
        var rings := g.coordinates.value.items;
        var i := 0;
        while i < |rings|
          invariant 0 <= i <= |rings|
          invariant totalPoints == PontosDosAneis(rings[..i])
        {
          if rings[i].Nested? {
            totalPoints := totalPoints + |rings[i].items|;
          }
          assert rings[..i + 1][..i] == rings[..i];
          i := i + 1;
        }
        assert rings[..i] == rings;
      }
    }
  }

  /** `isPoligonoGrande(elemento)`: a Polygon with more than 2000 points. */
  predicate IsPoligonoGrande(el: Option<Elemento>) {
    el.Some? && el.value.geometry.Some? && el.value.geometry.value.kind == "Polygon" && Pontos(el) > LimitePontos
  }

  /**
   * `isPoligonoGrande(elemento)` as the source runs it: anything but a Polygon
   * is not large; a Polygon is large when the loop of `contarPontosCoordenadas`
   * counts more than 2000 points.
   */
  method PoligonoGrande(el: Option<Elemento>) returns (grande: bool)
    ensures grande <==> IsPoligonoGrande(el)
    ensures grande ==> el.value.geometry.value.coordinates.value.Nested?
  {
    var isPolygon := el.Some? && el.value.geometry.Some? && el.value.geometry.value.kind == "Polygon";
    if !isPolygon {
      return false;
    }
    var totalPoints := ContarPontosCoordenadas(el);
    grande := totalPoints > LimitePontos;
  }

  /** A Polygon with rings `rings` and nothing else of note. */
  function Poligono(rings: seq<Coords>): Option<Elemento> {
    Some(Elemento("p", "", "Polygon", Undefined, Undefined, Undefined, Some(Geometry("Polygon", Some(Nested(rings))))))
  }

  /**
   * Being large only grows with the rings: a large polygon stays large when
   * rings are added, and a polygon is large when some of its rings already are.
   */
  lemma {:induction false} MaisAneisMantemGrande(a: seq<Coords>, b: seq<Coords>)
    ensures IsPoligonoGrande(Poligono(a)) ==> IsPoligonoGrande(Poligono(a + b))
    ensures IsPoligonoGrande(Poligono(b)) ==> IsPoligonoGrande(Poligono(a + b))
    ensures IsPoligonoGrande(Poligono(a + b)) <==> PontosDosAneis(a) + PontosDosAneis(b) > LimitePontos
  {
    PontosDosAneisConcat(a, b);
  }

  /** A polygon whose one ring has `n` points. */
  function PoligonoDeUmAnel(n: nat): (el: Option<Elemento>)
    ensures Pontos(el) == n
  {
    var rings := [Nested(seq(n, _ => Scalar(0.0)))];
    assert rings[..0] == [];
    Poligono(rings)
  }

  /** The boundary: 2000 points is not large, 2001 is. */
  lemma LimiteExato()
    ensures !IsPoligonoGrande(PoligonoDeUmAnel(2000))
    ensures IsPoligonoGrande(PoligonoDeUmAnel(2001))
  {
  }

  const TooltipPrefixo := "\n    <div style=\"padding: 10px; max-width: 300px;\">\n      <strong>Polígono com muitos pontos ("
  const TooltipSufixo := " pontos)</strong><br/><br/>\n      Este elemento possui mais de 2000 pontos de coordenadas e não pode ter suas coordenadas editadas diretamente no mapa.<br/><br/>\n      <em>Você pode:</em>\n      <ul style=\"margin: 10px 0; padding-left: 20px;\">\n        <li>Excluir o elemento</li>\n        <li>Editar suas propriedades na barra lateral (nome, tempo, texto, cor, etc.)</li>\n      </ul>\n    </div>\n  "

  /** `getTooltipPoligonoGrande(totalPoints)`: the fixed HTML text, with the count written in decimal in its one slot. */
  function TooltipPoligonoGrande(totalPoints: int): (r: string)
    ensures |r| == |TooltipPrefixo| + |IntToString(totalPoints)| + |TooltipSufixo|
    ensures r[..|TooltipPrefixo|] == TooltipPrefixo && r[|r| - |TooltipSufixo|..] == TooltipSufixo
    ensures r[|TooltipPrefixo|..|r| - |TooltipSufixo|] == IntToString(totalPoints)
  {
    TooltipPrefixo + IntToString(totalPoints) + TooltipSufixo
  }

  /** The tooltip names its count: different counts give different texts. */
  lemma TooltipDeterminaContagem(n: int, m: int)
    requires TooltipPoligonoGrande(n) == TooltipPoligonoGrande(m)
    ensures n == m
  {
    var a := TooltipPoligonoGrande(n);
    var b := TooltipPoligonoGrande(m);
    var p := |TooltipPrefixo|;
    var s := |TooltipSufixo|;
    assert a[p..|a| - s] == IntToString(n);
    assert b[p..|b| - s] == IntToString(m);
    IntToStringInjective(n, m);
  }
}
