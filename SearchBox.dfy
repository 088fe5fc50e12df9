/**
 * src/components/SearchBox/SearchBox.tsx: how a search result is labelled
 * (`formatDisplayName`, `getPlaceType`), when typing starts a search, the
 * text shown when there are no options, and what selecting a result does.
 * The debounce, the asynchronous request and the React state are not modelled:
 * a search is the decision to call `search` with the given arguments.
 */
module SearchBox {
  import opened JsCore
  import opened JsText
  import opened Nominatim

  /** `{ main, details }`. */
  datatype NomeFormatado = NomeFormatado(main: string, details: string)

  /** The text of the rest after the first comma up to, not including, its second comma (all of it when it has fewer). */
  function AteSegundaVirgula(rest: string): string {
    if ',' !in rest then rest
    else
      var j := IndexOf(rest, ',');
      var u := rest[j + 1..];
      if ',' !in u then rest else rest[..j + 1 + IndexOf(u, ',')]
  }

  /**
   * `formatDisplayName(displayName)`: `main` is the first comma-separated part,
   * trimmed; `details` is the second and third parts joined by "," and trimmed.
   */
  function FormatDisplayName(displayName: string): (r: NomeFormatado)
    ensures ',' !in displayName ==> r == NomeFormatado(Trim(displayName), "")
    ensures ',' in displayName ==> r.main == Trim(displayName[..IndexOf(displayName, ',')])
    ensures ',' in displayName ==>
              r.details == Trim(AteSegundaVirgula(displayName[IndexOf(displayName, ',') + 1..]))
    ensures ',' !in r.main
  {
    var parts := Split(displayName, ',');
    var detailParts := parts[1..if |parts| < 3 then |parts| else 3];
    DetailsAreTheNextTwoParts(displayName);
    NoCommaInTrim(parts[0]);
    NomeFormatado(Trim(parts[0]), Trim(Join(detailParts, ',')))
  }

  lemma NoCommaInTrim(s: string)
    requires ',' !in s
    ensures ',' !in Trim(s)
  {
  }

  /** Splitting at the first comma: the text before it, then the split of the rest. */
  lemma SplitAtFirst(s: string)
    requires ',' in s
    ensures Split(s, ',') == [s[..IndexOf(s, ',')]] + Split(s[IndexOf(s, ',') + 1..], ',')
  {
  }

  lemma JoinPair(a: string, b: string)
    ensures Join([a, b], ',') == a + [','] + b
  {
    assert [a, b][1..] == [b];
  }

  /** The first two parts of a text, joined, are its text up to its second comma. */
  lemma FirstTwoParts(rest: string)
    ensures var sr := Split(rest, ',');
            Join(sr[..if |sr| < 2 then |sr| else 2], ',') == AteSegundaVirgula(rest)
  {
    var sr := Split(rest, ',');
    if ',' !in rest {
      assert sr[..1] == sr;
    } else {
      var j := IndexOf(rest, ',');
      var u := rest[j + 1..];
      var su := Split(u, ',');
      SplitAtFirst(rest);
      assert sr[..2] == [rest[..j], su[0]];
      JoinPair(rest[..j], su[0]);
      SecondPart(rest, j, u);
    }
  }

  lemma SecondPart(rest: string, j: nat, u: string)
    requires ',' in rest && j == IndexOf(rest, ',') && u == rest[j + 1..]
    ensures rest[..j] + [','] + Split(u, ',')[0] == AteSegundaVirgula(rest)
  {
    if ',' !in u {
      OnlyOneComma(rest, j, u);
    } else {
      SecondComma(rest, j, u);
    }
  }

  lemma OnlyOneComma(rest: string, j: nat, u: string)
    requires ',' in rest && j == IndexOf(rest, ',') && u == rest[j + 1..] && ',' !in u
    ensures rest[..j] + [','] + Split(u, ',')[0] == AteSegundaVirgula(rest)
  {
    assert Split(u, ',')[0] == u;
    CommaThenPrefix(rest, j, |u|);
    assert u[..|u|] == u && rest[..j + 1 + |u|] == rest;
  }

  lemma SecondComma(rest: string, j: nat, u: string)
    requires ',' in rest && j == IndexOf(rest, ',') && u == rest[j + 1..] && ',' in u
    ensures rest[..j] + [','] + Split(u, ',')[0] == AteSegundaVirgula(rest)
  {
    var k := IndexOf(u, ',');
    calc {
      rest[..j] + [','] + Split(u, ',')[0];
      rest[..j] + [','] + u[..k];
      { CommaThenPrefix(rest, j, k); }
      rest[..j + 1 + k];
      AteSegundaVirgula(rest);
    }
  }

  /** The text before a comma, the comma, then a prefix of what follows it. */
  lemma CommaThenPrefix(s: string, j: nat, k: nat)
    requires j < |s| && s[j] == ',' && j + 1 + k <= |s|
    ensures s[..j] + [','] + s[j + 1..][..k] == s[..j + 1 + k]
  {
    assert s[j + 1..][..k] == s[j + 1..j + 1 + k];
  }

  /** Dropping a first part: parts two and three are the first two of the rest. */
  lemma AfterFirstPart(first: string, rest: seq<string>)
    ensures var parts := [first] + rest;
            parts[1..if |parts| < 3 then |parts| else 3] == rest[..if |rest| < 2 then |rest| else 2]
  {
    var parts := [first] + rest;
    assert parts[1..] == rest;
  }

  /** Parts two and three of the name, joined, are the text between its first and third commas. */
  lemma DetailsAreTheNextTwoParts(s: string)
    ensures var parts := Split(s, ',');
            Join(parts[1..if |parts| < 3 then |parts| else 3], ',') ==
              if ',' !in s then "" else AteSegundaVirgula(s[IndexOf(s, ',') + 1..])
  {
    var parts := Split(s, ',');
    if ',' in s {
      var i := IndexOf(s, ',');
      var rest := s[i + 1..];
      SplitAtFirst(s);
      AfterFirstPart(s[..i], Split(rest, ','));
      FirstTwoParts(rest);
    } else {
      assert parts == [s];
      assert parts[1..1] == [];
    }
  }

  /** `typeMap`: the Portuguese label of each Nominatim place type or class it knows. */
  const TypeMap: map<string, string> := map[
    "country" := "País",
    "state" := "Estado",
    "city" := "Cidade",
    "town" := "Cidade",
    "village" := "Vila",
    "suburb" := "Bairro",
    "neighbourhood" := "Vizinhança",
    "hamlet" := "Povoado",
    "administrative" := "Região Administrativa",
    "municipality" := "Município",
    "district" := "Distrito",
    "county" := "Condado",
    "region" := "Região"
  ]

  /** `typeMap[key]`, with an unknown key read as the falsy `undefined`, written "". */
  function Label(key: string): string {
    if key in TypeMap then TypeMap[key] else ""
  }

  /** `a || b` on strings. */
  function OrElse(a: string, b: string): string {
    if a != "" then a else b
  }

  /**
   * `getPlaceType(result)`: the label of the result's type, else of its class,
   * else "Local".
   */
  function GetPlaceType(placeType: string, placeClass: string): (r: string)
    ensures placeType in TypeMap ==> r == TypeMap[placeType]
    ensures placeType !in TypeMap && placeClass in TypeMap ==> r == TypeMap[placeClass]
    ensures placeType !in TypeMap && placeClass !in TypeMap ==> r == "Local"
  {
    OrElse(OrElse(Label(placeType), Label(placeClass)), "Local")
  }

  /** "Local" is shown exactly when neither the type nor the class is known. */
  lemma PlaceTypeLocalIff(placeType: string, placeClass: string)
    ensures GetPlaceType(placeType, placeClass) == "Local" <==> placeType !in TypeMap && placeClass !in TypeMap
  {
    assert forall k :: k in TypeMap ==> TypeMap[k] != "Local";
  }

  /** Cities and towns are both shown as "Cidade", whatever their class. */
  lemma CityAndTown(c1: string, c2: string)
    ensures GetPlaceType("city", c1) == "Cidade" && GetPlaceType("town", c2) == "Cidade"
  {
  }

  /** `str.length`: UTF-16 code units, two for a character outside the Basic Multilingual Plane. */
  function Utf16Length(s: string): (n: nat)
    ensures n >= |s|
    ensures (forall i :: 0 <= i < |s| ==> s[i] <= '\U{FFFF}') ==> n == |s|
  {
    if s == [] then 0
    else Utf16Length(s[..|s| - 1]) + (if s[|s| - 1] <= '\U{FFFF}' then 1 else 2)
  }

  /** What `fetchLocations(query)` does: clear the options, or search. */
  datatype Busca = LimparOpcoes | Pesquisar(query: string, options: SearchOptions)

  /** The options every search from the box uses: eight results, with polygons. */
  const OpcoesDaCaixa := SearchOptions(Some(8), None, Some(true))

  /**
   * `fetchLocations(query)`: a query shorter than 3 clears the options and
   * sends nothing; a longer one searches for exactly that query, for at most 8
   * results, polygons included.
   */
  function FetchLocations(query: string): (b: Busca)
    ensures b == LimparOpcoes <==> Utf16Length(query) < 3
    ensures b.Pesquisar? ==> b.query == query && b.options == OpcoesDaCaixa
  {
    if Utf16Length(query) < 3 then LimparOpcoes else Pesquisar(query, OpcoesDaCaixa)
  }

  /** The request a search from the box sends: the typed query, limit 8, Portuguese, polygons included. */
  lemma SearchFromBox(query: string)
    requires Utf16Length(query) >= 3
    ensures var ps := SearchParams(FetchLocations(query).query, FetchLocations(query).options);
            ps[0] == ("q", query) && ps[2] == ("limit", "8") && ps[3] == ("accept-language", "pt-BR")
            && ps[4] == ("polygon_geojson", "1")
  {
    assert IntToString(8) == "8";
  }

  const TextoPoucosCaracteres := "Digite pelo menos 3 caracteres..."
  const TextoSemResultados := "Nenhuma localização encontrada"

  /** `noOptionsText`: ask for more characters exactly when the input is shorter than 3. */
  function NoOptionsText(inputValue: string): (t: string)
    ensures t == TextoPoucosCaracteres <==> Utf16Length(inputValue) < 3
    ensures t != TextoPoucosCaracteres ==> t == TextoSemResultados
  {
    if Utf16Length(inputValue) < 3 then TextoPoucosCaracteres else TextoSemResultados
  }

  /** The box asks for more characters exactly when typing would not search. */
  lemma NoOptionsTextMatchesGuard(inputValue: string)
    ensures NoOptionsText(inputValue) == TextoPoucosCaracteres <==> FetchLocations(inputValue) == LimparOpcoes
  {
  }

  /** What `onChange(event, value)` leaves: the result reported to `onLocationSelect`, if any, and the input text. */
  datatype Selecao<T> = Selecao(reported: Option<T>, inputValue: string)

  /** `onChange`: a chosen value is reported and the input is reset to ""; no value changes nothing. */
  function OnChange<T>(value: Option<T>, inputValue: string): (s: Selecao<T>)
    ensures value.Some? ==> s.reported == value && s.inputValue == ""
    ensures value.None? ==> s.reported.None? && s.inputValue == inputValue
  {
    if value.Some? then Selecao(value, "") else Selecao(None, inputValue)
  }

  /** After a selection the box is back to its initial state: no search, and the "type 3 characters" text. */
  lemma SelectionResetsBox<T>(value: T, inputValue: string)
    ensures FetchLocations(OnChange(Some(value), inputValue).inputValue) == LimparOpcoes
    ensures NoOptionsText(OnChange(Some(value), inputValue).inputValue) == TextoPoucosCaracteres
  {
  }
}
