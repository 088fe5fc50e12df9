/**
 * src/components/Studio/Propriedades/ListaElementos.tsx: the list of a
 * document's elements shown in the properties panel, the colour of each
 * element's type chip, and the selection the panel keeps (toggle, select all,
 * delete the selected elements).
 */
module ListaElementos {
  import opened JsCore
  import opened JsText
  import opened MapaTypes

  /** One row of the list. */
  datatype ElementoLista = ElementoLista(id: string, nome: string, tipo: string, visivel: bool)

  /** The listed groups, in list order, each with the word its default names start with. */
  const Grupos: seq<(string, string)> := [
    ("Marker", "Marcador"),
    ("Polygon", "Polígono"),
    ("LineString", "Linha"),
    ("Circle", "Círculo"),
    ("ImageOverlay", "Imagem")
  ]

  /** The position of a listed type in `Grupos`. */
  function Posto(tipo: string): (k: Option<nat>)
    ensures k.Some? ==> k.value < |Grupos| && Grupos[k.value].0 == tipo
    ensures k.None? ==> forall g :: 0 <= g < |Grupos| ==> Grupos[g].0 != tipo
  {
    if tipo == "Marker" then Some(0)
    else if tipo == "Polygon" then Some(1)
    else if tipo == "LineString" then Some(2)
    else if tipo == "Circle" then Some(3)
    else if tipo == "ImageOverlay" then Some(4)
    else None
  }

  /** The listed types are distinct. */
  lemma PostoDoGrupo(g: int)
    requires 0 <= g < |Grupos|
    ensures Posto(Grupos[g].0) == Some(g)
  {
  }

  /** `el.nome || \`<rotulo> ${el.id}\``: the element's name, or a default made of the type's word and the id. */
  function NomeNaLista(el: Elemento, rotulo: string): (r: string)
    ensures el.nome != "" ==> r == el.nome
    ensures el.nome == "" ==> r == rotulo + " " + el.id
  {
    if el.nome != "" then el.nome else rotulo + " " + el.id
  }

  function Item(el: Elemento, tipo: string, rotulo: string): ElementoLista {
    ElementoLista(el.id, NomeNaLista(el, rotulo), tipo, true)
  }

  /** The rows of one group, in the group's order. */
  function ListaDoGrupo(grupo: seq<Elemento>, tipo: string, rotulo: string): (r: seq<ElementoLista>)
    ensures |r| == |grupo|
  {
    if grupo == [] then []
    else ListaDoGrupo(grupo[..|grupo| - 1], tipo, rotulo) + [Item(grupo[|grupo| - 1], tipo, rotulo)]
  }

  /** Row `i` of a group is its element `i`, named by its `nome` or by the type's default. */
  lemma {:induction false} ListaDoGrupoItens(grupo: seq<Elemento>, tipo: string, rotulo: string)
    ensures forall i :: 0 <= i < |grupo| ==> ListaDoGrupo(grupo, tipo, rotulo)[i] == Item(grupo[i], tipo, rotulo)
  {
    if grupo != [] {
      ListaDoGrupoItens(grupo[..|grupo| - 1], tipo, rotulo);
    }
  }

  /** The rows of the group named `tipo`, or none when the document has no such group. */
  function Linhas(conteudo: map<string, seq<Elemento>>, tipo: string, rotulo: string): seq<ElementoLista> {
    if tipo in conteudo then ListaDoGrupo(conteudo[tipo], tipo, rotulo) else []
  }

  /** The rows of the groups a table names, group after group. */
  function Ate(conteudo: map<string, seq<Elemento>>, tabela: seq<(string, string)>): seq<ElementoLista> {
    if tabela == [] then []
    else Ate(conteudo, tabela[..|tabela| - 1]) + Linhas(conteudo, tabela[|tabela| - 1].0, tabela[|tabela| - 1].1)
  }

  /** What `getAllElements` lists. */
  function Elementos(conteudo: map<string, seq<Elemento>>): seq<ElementoLista> {
    Ate(conteudo, Grupos)
  }

  /** No type appears twice in the table. */
  predicate TiposDistintos(tabela: seq<(string, string)>) {
    forall i, j :: 0 <= i < j < |tabela| ==> tabela[i].0 != tabela[j].0
  }

  lemma GruposDistintos()
    ensures TiposDistintos(Grupos)
  {
    forall i, j | 0 <= i < j < |Grupos|
      ensures Grupos[i].0 != Grupos[j].0
    {
      PostoDoGrupo(i);
      PostoDoGrupo(j);
    }
  }

  /** `if (conteudo[tipo]) conteudo[tipo].forEach(el => elementos.push(...))`. */
  method AdicionarGrupo(elementos: seq<ElementoLista>, conteudo: map<string, seq<Elemento>>, tipo: string, rotulo: string)
    returns (r: seq<ElementoLista>)
    ensures r == elementos + Linhas(conteudo, tipo, rotulo)
  {
    r := elementos;
    if tipo in conteudo {
      var grupo := conteudo[tipo];
      var i := 0;
      while i < |grupo|
        invariant 0 <= i <= |grupo|
        invariant r == elementos + ListaDoGrupo(grupo[..i], tipo, rotulo)
      {
        var el := grupo[i];
        r := r + [ElementoLista(el.id, if el.nome != "" then el.nome else rotulo + " " + el.id, tipo, true)];
        assert grupo[..i + 1][..i] == grupo[..i];
        i := i + 1;
      }
      assert grupo[..i] == grupo;
    }
  }

  lemma AteMaisUm(conteudo: map<string, seq<Elemento>>, tabela: seq<(string, string)>, n: nat)
    requires n < |tabela|
    ensures Ate(conteudo, tabela[..n + 1]) == Ate(conteudo, tabela[..n]) + Linhas(conteudo, tabela[n].0, tabela[n].1)
  {
    assert tabela[..n + 1][..n] == tabela[..n];
  }

  lemma AteDeCinco(conteudo: map<string, seq<Elemento>>, t: seq<(string, string)>)
    requires |t| == 5
    ensures Ate(conteudo, t) ==
              Linhas(conteudo, t[0].0, t[0].1) + Linhas(conteudo, t[1].0, t[1].1) + Linhas(conteudo, t[2].0, t[2].1)
              + Linhas(conteudo, t[3].0, t[3].1) + Linhas(conteudo, t[4].0, t[4].1)
  {
    var l0, l1, l2, l3, l4 := Linhas(conteudo, t[0].0, t[0].1), Linhas(conteudo, t[1].0, t[1].1),
      Linhas(conteudo, t[2].0, t[2].1), Linhas(conteudo, t[3].0, t[3].1), Linhas(conteudo, t[4].0, t[4].1);
    calc {
      Ate(conteudo, t);
      { assert t[..5] == t; }
      Ate(conteudo, t[..5]);
      { AteMaisUm(conteudo, t, 4); }
      Ate(conteudo, t[..4]) + l4;
      { AteMaisUm(conteudo, t, 3); }
      Ate(conteudo, t[..3]) + l3 + l4;
      { AteMaisUm(conteudo, t, 2); }
      Ate(conteudo, t[..2]) + l2 + l3 + l4;
      { AteMaisUm(conteudo, t, 1); }
      Ate(conteudo, t[..1]) + l1 + l2 + l3 + l4;
      { AteMaisUm(conteudo, t, 0); assert t[..0] == []; }
      l0 + l1 + l2 + l3 + l4;
    }
  }

  /** The list is the markers' rows, then the polygons', the lines', the circles' and the image overlays'. */
  lemma ElementosPorGrupo(conteudo: map<string, seq<Elemento>>)
    ensures Elementos(conteudo) ==
              Linhas(conteudo, "Marker", "Marcador") + Linhas(conteudo, "Polygon", "Polígono")
              + Linhas(conteudo, "LineString", "Linha") + Linhas(conteudo, "Circle", "Círculo")
              + Linhas(conteudo, "ImageOverlay", "Imagem")
  {
    AteDeCinco(conteudo, Grupos);
  }

  /** `getAllElements()`: markers, polygons, lines, circles and image overlays, in that order. */
  method GetAllElements(conteudo: map<string, seq<Elemento>>) returns (elementos: seq<ElementoLista>)
    ensures elementos == Elementos(conteudo)
  {
    elementos := [];
    elementos := AdicionarGrupo(elementos, conteudo, "Marker", "Marcador");
    elementos := AdicionarGrupo(elementos, conteudo, "Polygon", "Polígono");
    elementos := AdicionarGrupo(elementos, conteudo, "LineString", "Linha");
    elementos := AdicionarGrupo(elementos, conteudo, "Circle", "Círculo");
    elementos := AdicionarGrupo(elementos, conteudo, "ImageOverlay", "Imagem");
    ElementosPorGrupo(conteudo);
  }

  /** The rows of type `tipo`, in order. */
  function DoTipo(s: seq<ElementoLista>, tipo: string): seq<ElementoLista> {
    if s == [] then []
    else DoTipo(s[..|s| - 1], tipo) + (if s[|s| - 1].tipo == tipo then [s[|s| - 1]] else [])
  }

  lemma {:induction false} DoTipoConcat(a: seq<ElementoLista>, b: seq<ElementoLista>, tipo: string)
    ensures DoTipo(a + b, tipo) == DoTipo(a, tipo) + DoTipo(b, tipo)
  {
    if b != [] {
      var b' := b[..|b| - 1];
      assert (a + b)[..|a + b| - 1] == a + b';
      DoTipoConcat(a, b', tipo);
    } else {
      assert a + b == a;
    }
  }

  lemma {:induction false} DoTipoDoGrupo(grupo: seq<Elemento>, tipo: string, rotulo: string, t: string)
    ensures DoTipo(ListaDoGrupo(grupo, tipo, rotulo), t) == if t == tipo then ListaDoGrupo(grupo, tipo, rotulo) else []
  {
    if grupo != [] {
      var r := ListaDoGrupo(grupo, tipo, rotulo);
      assert r[..|r| - 1] == ListaDoGrupo(grupo[..|grupo| - 1], tipo, rotulo);
      DoTipoDoGrupo(grupo[..|grupo| - 1], tipo, rotulo, t);
    }
  }

  lemma DoTipoLinhas(conteudo: map<string, seq<Elemento>>, tipo: string, rotulo: string, t: string)
    ensures DoTipo(Linhas(conteudo, tipo, rotulo), t) == if t == tipo then Linhas(conteudo, tipo, rotulo) else []
  {
    if tipo in conteudo {
      DoTipoDoGrupo(conteudo[tipo], tipo, rotulo, t);
    }
  }

  lemma {:induction false} DoTipoAte(conteudo: map<string, seq<Elemento>>, tabela: seq<(string, string)>, g: int)
    requires TiposDistintos(tabela) && 0 <= g < |tabela|
    ensures DoTipo(Ate(conteudo, tabela), tabela[g].0) == Linhas(conteudo, tabela[g].0, tabela[g].1)
  {
    var n := |tabela|;
    var t := tabela[g].0;
    var init := tabela[..n - 1];
    var a := Ate(conteudo, init);
    var l := Linhas(conteudo, tabela[n - 1].0, tabela[n - 1].1);
    DoTipoConcat(a, l, t);
    DoTipoLinhas(conteudo, tabela[n - 1].0, tabela[n - 1].1, t);
    if g == n - 1 {
      DoTipoAusente(conteudo, init, t);
    } else {
      assert init[g] == tabela[g];
      DoTipoAte(conteudo, init, g);
    }
  }

  lemma {:induction false} DoTipoAusente(conteudo: map<string, seq<Elemento>>, tabela: seq<(string, string)>, t: string)
    requires forall i :: 0 <= i < |tabela| ==> tabela[i].0 != t
    ensures DoTipo(Ate(conteudo, tabela), t) == []
  {
    if tabela != [] {
      var n := |tabela|;
      DoTipoAusente(conteudo, tabela[..n - 1], t);
      DoTipoConcat(Ate(conteudo, tabela[..n - 1]), Linhas(conteudo, tabela[n - 1].0, tabela[n - 1].1), t);
      DoTipoLinhas(conteudo, tabela[n - 1].0, tabela[n - 1].1, t);
    }
  }

  /**
   * Each listed group appears in full and in its own order: the rows of a
   * listed type are exactly that group's elements, each named by its `nome`
   * or by the type's default.
   */
  lemma GrupoCompleto(conteudo: map<string, seq<Elemento>>, g: int)
    requires 0 <= g < |Grupos|
    ensures DoTipo(Elementos(conteudo), Grupos[g].0) == Linhas(conteudo, Grupos[g].0, Grupos[g].1)
  {
    GruposDistintos();
    DoTipoAte(conteudo, Grupos, g);
  }

  /** Every row's type is in the table. */
  predicate TiposListados(s: seq<ElementoLista>, tabela: seq<(string, string)>) {
    forall i :: 0 <= i < |s| ==> exists g :: 0 <= g < |tabela| && tabela[g].0 == s[i].tipo
  }

  /** A row of an earlier group in the table never comes after a row of a later one. */
  predicate OrdemDosGrupos(s: seq<ElementoLista>, tabela: seq<(string, string)>) {
    forall i, j, g, h ::
      (0 <= i < j < |s| && 0 <= g < |tabela| && 0 <= h < |tabela|
       && tabela[g].0 == s[i].tipo && tabela[h].0 == s[j].tipo) ==> g <= h
  }

  /** Every row's type is in the table, and rows come in the table's order of types. */
  predicate EmOrdem(s: seq<ElementoLista>, tabela: seq<(string, string)>) {
    TiposListados(s, tabela) && OrdemDosGrupos(s, tabela)
  }

  lemma {:induction false} AteEmOrdem(conteudo: map<string, seq<Elemento>>, tabela: seq<(string, string)>)
    requires TiposDistintos(tabela)
    ensures EmOrdem(Ate(conteudo, tabela), tabela)
    ensures forall i :: 0 <= i < |Ate(conteudo, tabela)| ==> Ate(conteudo, tabela)[i].visivel
  {
    if tabela != [] {
      var n := |tabela|;
      var init := tabela[..n - 1];
      AteEmOrdem(conteudo, init);
      var l := Linhas(conteudo, tabela[n - 1].0, tabela[n - 1].1);
      if tabela[n - 1].0 in conteudo {
        ListaDoGrupoItens(conteudo[tabela[n - 1].0], tabela[n - 1].0, tabela[n - 1].1);
      }
      OrdemComUltimoGrupo(Ate(conteudo, init), l, tabela);
    }
  }

  /** Rows in the order of a table's first groups, followed by rows of its last group, are in the table's order. */
  lemma OrdemComUltimoGrupo(a: seq<ElementoLista>, l: seq<ElementoLista>, tabela: seq<(string, string)>)
    requires TiposDistintos(tabela) && tabela != []
    requires EmOrdem(a, tabela[..|tabela| - 1]) && forall i :: 0 <= i < |a| ==> a[i].visivel
    requires forall i :: 0 <= i < |l| ==> l[i].tipo == tabela[|tabela| - 1].0 && l[i].visivel
    ensures EmOrdem(a + l, tabela) && forall i :: 0 <= i < |a + l| ==> (a + l)[i].visivel
  {
    ListadosComUltimoGrupo(a, l, tabela);
    OrdemComUltimo(a, l, tabela);
  }

  lemma ListadosComUltimoGrupo(a: seq<ElementoLista>, l: seq<ElementoLista>, tabela: seq<(string, string)>)
    requires tabela != [] && TiposListados(a, tabela[..|tabela| - 1])
    requires forall i :: 0 <= i < |l| ==> l[i].tipo == tabela[|tabela| - 1].0
    ensures TiposListados(a + l, tabela)
  {
    var n := |tabela|;
    var init := tabela[..n - 1];
    var s := a + l;
    forall i | 0 <= i < |s|
      ensures exists g :: 0 <= g < |tabela| && tabela[g].0 == s[i].tipo
    {
      if i < |a| {
        assert s[i] == a[i];
        var g :| 0 <= g < |init| && init[g].0 == a[i].tipo;
        assert tabela[g] == init[g];
      } else {
        assert s[i] == l[i - |a|];
        assert tabela[n - 1].0 == s[i].tipo;
      }
    }
    assert forall i :: 0 <= i < |s| ==> exists g :: 0 <= g < |tabela| && tabela[g].0 == s[i].tipo;
    assert TiposListados(s, tabela);
  }

  lemma OrdemComUltimo(a: seq<ElementoLista>, l: seq<ElementoLista>, tabela: seq<(string, string)>)
    requires TiposDistintos(tabela) && tabela != []
    requires EmOrdem(a, tabela[..|tabela| - 1])
    requires forall i :: 0 <= i < |l| ==> l[i].tipo == tabela[|tabela| - 1].0
    ensures OrdemDosGrupos(a + l, tabela)
  {
    var n := |tabela|;
    var init := tabela[..n - 1];
    var s := a + l;
    forall i, j, g, h | 0 <= i < j < |s| && 0 <= g < |tabela| && 0 <= h < |tabela|
        && tabela[g].0 == s[i].tipo && tabela[h].0 == s[j].tipo
      ensures g <= h
    {
      if j < |a| {
        assert s[i] == a[i] && s[j] == a[j];
        var g' :| 0 <= g' < |init| && init[g'].0 == a[i].tipo;
        var h' :| 0 <= h' < |init| && init[h'].0 == a[j].tipo;
        assert tabela[g'] == init[g'] && tabela[h'] == init[h'];
        assert g == g' && h == h';
      } else {
        assert s[j] == l[j - |a|];
        assert h == n - 1;
      }
    }
  }

  /**
   * Only the five listed types appear (no Point, no Rectangle), every row of
   * an earlier group comes before every row of a later one, and every row is
   * visible.
   */
  lemma SoGruposListados(conteudo: map<string, seq<Elemento>>)
    ensures forall i :: 0 <= i < |Elementos(conteudo)| ==> Posto(Elementos(conteudo)[i].tipo).Some?
    ensures EmOrdem(Elementos(conteudo), Grupos)
    ensures forall i :: 0 <= i < |Elementos(conteudo)| ==> Elementos(conteudo)[i].visivel
  {
    GruposDistintos();
    AteEmOrdem(conteudo, Grupos);
    var s := Elementos(conteudo);
    forall i | 0 <= i < |s|
      ensures Posto(s[i].tipo).Some?
    {
      var g :| 0 <= g < |Grupos| && Grupos[g].0 == s[i].tipo;
      PostoDoGrupo(g);
    }
  }

  /** `getChipColor(tipo)`. */
  function ChipColor(tipo: string): (r: string)
    ensures r == "default" <==> Posto(tipo).None?
  {
    if tipo == "Marker" then "error"
    else if tipo == "Polygon" then "primary"
    else if tipo == "LineString" then "success"
    else if tipo == "Circle" then "warning"
    else if tipo == "ImageOverlay" then "secondary"
    else "default"
  }

  /** Which listed type a chip colour stands for. */
  function TipoDaCor(cor: string): Option<string> {
    if cor == "error" then Some("Marker")
    else if cor == "primary" then Some("Polygon")
    else if cor == "success" then Some("LineString")
    else if cor == "warning" then Some("Circle")
    else if cor == "secondary" then Some("ImageOverlay")
    else None
  }

  /** The colour of a listed type tells the type back; an unlisted type shows no type. */
  lemma ChipColorInverse(tipo: string)
    ensures Posto(tipo).Some? ==> TipoDaCor(ChipColor(tipo)) == Some(tipo)
    ensures Posto(tipo).None? ==> TipoDaCor(ChipColor(tipo)).None?
  {
  }

  /** Listed types have different colours. */
  lemma ChipColorInjective(a: string, b: string)
    requires Posto(a).Some? && ChipColor(a) == ChipColor(b)
    ensures a == b
  {
    ChipColorInverse(a);
    ChipColorInverse(b);
  }

  /** `prev.filter(item => item !== id)`. */
  function Sem(prev: seq<string>, id: string): (r: seq<string>)
    ensures id !in r
    ensures id !in prev ==> r == prev
  {
    if prev == [] then []
    else
      var init := prev[..|prev| - 1];
      var last := prev[|prev| - 1];
      assert prev == init + [last];
      Sem(init, id) + (if last == id then [] else [last])
  }

  /** Filtering removes every copy of the id and keeps every other id as often as it was there. */
  lemma {:induction false} SemMultiset(prev: seq<string>, id: string)
    ensures multiset(Sem(prev, id)) == multiset(prev)[id := 0]
  {
    if prev != [] {
      var init, last := prev[..|prev| - 1], prev[|prev| - 1];
      assert prev == init + [last];
      SemMultiset(init, id);
    }
  }

  /** Filtering a concatenation filters each part: the order of the kept ids is the order they had. */
  lemma {:induction false} SemConcat(a: seq<string>, b: seq<string>, id: string)
    ensures Sem(a + b, id) == Sem(a, id) + Sem(b, id)
  {
    if b != [] {
      var b', last := b[..|b| - 1], b[|b| - 1];
      var tail := if last == id then [] else [last];
      calc {
        Sem(a + b, id);
        { assert (a + b)[..|a + b| - 1] == a + b' && (a + b)[|a + b| - 1] == last; }
        Sem(a + b', id) + tail;
        { SemConcat(a, b', id); }
        Sem(a, id) + Sem(b', id) + tail;
        Sem(a, id) + (Sem(b', id) + tail);
      }
    } else {
      assert a + b == a;
    }
  }

  /** `handleToggleItem(id)`: a selected id leaves the selection (every copy of it); another one is added last. */
  function Toggle(prev: seq<string>, id: string): (r: seq<string>)
    ensures id in prev ==> id !in r && multiset(r) == multiset(prev)[id := 0]
    ensures id !in prev ==> r == prev + [id]
    ensures id in r <==> id !in prev
  {
    if id in prev then SemMultiset(prev, id); Sem(prev, id) else prev + [id]
  }

  /** Toggling an id that was not selected, twice, gives back the selection. */
  lemma ToggleTwiceAbsent(prev: seq<string>, id: string)
    requires id !in prev
    ensures Toggle(Toggle(prev, id), id) == prev
  {
    SemConcat(prev, [id], id);
  }

  /** Toggling a selected id twice moves it to the end, once. */
  lemma ToggleTwicePresent(prev: seq<string>, id: string)
    requires id in prev
    ensures Toggle(Toggle(prev, id), id) == Sem(prev, id) + [id]
  {
  }

  /** `handleSelectAll()`: clear a selection as long as the list, else select every listed id, in list order. */
  function SelectAll(selected: seq<string>, elementos: seq<ElementoLista>): (r: seq<string>)
    ensures |selected| == |elementos| ==> r == []
    ensures |selected| != |elementos| ==> |r| == |elementos| && forall i :: 0 <= i < |elementos| ==> r[i] == elementos[i].id
  {
    if |selected| == |elementos| then []
    else seq(|elementos|, i requires 0 <= i < |elementos| => elementos[i].id)
  }

  /** Pressing "select all" twice on a partial selection clears it. */
  lemma SelectAllTwice(selected: seq<string>, elementos: seq<ElementoLista>)
    requires |selected| != |elementos|
    ensures SelectAll(SelectAll(selected, elementos), elementos) == []
  {
  }

  /** `{ type: 'removeElements', id }`. */
  function RemoveElements(id: string): (a: Action)
    ensures a.kind == "removeElements" && a.id == Str(id)
  {
    ActionOf("removeElements").(id := Str(id))
  }

  const ConfirmacaoPrefixo := "Tem certeza que deseja excluir "
  const ConfirmacaoSufixo := " elemento(s)?"

  /** The text of the confirmation dialog: the fixed question with the count written in decimal in its one slot. */
  function MensagemConfirmacao(n: int): (m: string)
    ensures |m| == |ConfirmacaoPrefixo| + |IntToString(n)| + |ConfirmacaoSufixo|
    ensures m[..|ConfirmacaoPrefixo|] == ConfirmacaoPrefixo && m[|m| - |ConfirmacaoSufixo|..] == ConfirmacaoSufixo
    ensures m[|ConfirmacaoPrefixo|..|m| - |ConfirmacaoSufixo|] == IntToString(n)
  {
    ConfirmacaoPrefixo + IntToString(n) + ConfirmacaoSufixo
  }

  /** The dialog names the count it asks about: different counts give different texts. */
  lemma MensagemDeterminaContagem(n: int, m: int)
    requires MensagemConfirmacao(n) == MensagemConfirmacao(m)
    ensures n == m
  {
    var a := MensagemConfirmacao(n);
    var b := MensagemConfirmacao(m);
    var p := |ConfirmacaoPrefixo|;
    var s := |ConfirmacaoSufixo|;
    assert a[p..|a| - s] == IntToString(n);
    assert b[p..|b| - s] == IntToString(m);
    IntToStringInjective(n, m);
  }

  /**
   * `handleDeleteSelected()`. With nothing selected nothing happens.
   * Otherwise the dialog asks to confirm the number of selected elements;
   * `confirmado` is the user's answer. On confirm, one `removeElements` is
   * dispatched per selected id, in selection order, and the selection is
   * cleared; otherwise nothing changes.
   */
  method DeleteSelected(selected: seq<string>, confirmado: bool)
    returns (pergunta: Option<string>, despachadas: seq<Action>, selecao: seq<string>)
    ensures selected == [] ==> pergunta.None? && despachadas == [] && selecao == selected
    ensures selected != [] ==> pergunta == Some(MensagemConfirmacao(|selected|))
    ensures selected != [] && !confirmado ==> despachadas == [] && selecao == selected
    ensures selected != [] && confirmado ==>
              && |despachadas| == |selected|
              && (forall i :: 0 <= i < |selected| ==> despachadas[i] == RemoveElements(selected[i]))
              && selecao == []
  {
    pergunta := None;
    despachadas := [];
    selecao := selected;
    if |selected| == 0 {
      return;
    }
    pergunta := Some(MensagemConfirmacao(|selected|));
    if confirmado {
      var k := 0;
      while k < |selected|
        invariant 0 <= k <= |selected|
        invariant |despachadas| == k
        invariant forall i :: 0 <= i < k ==> despachadas[i] == RemoveElements(selected[i])
      {
        despachadas := despachadas + [RemoveElements(selected[k])];
        k := k + 1;
      }
      selecao := [];
    }
  }
}
