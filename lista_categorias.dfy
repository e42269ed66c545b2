/**
 * The category list page: the records loaded from /api/categorias, the
 * search box filter over the name (case-insensitive) or the decimal id
 * (raw term), the message of an empty table, and confirm-delete-reload.
 */
module ListaCategorias {
  import opened Wrappers
  import opened JsString
  import opened Sequences
  import opened Browser

  datatype Categoria = Categoria(id: int, nombre: string)

  const ListUrl := "/api/categorias"
  const DeleteQuestion := "¿Estás seguro de eliminar esta categoría?"
  const NoMatches := "No se encontraron categorías con ese criterio"
  const NoneRegistered := "No hay categorías registradas"

  /** The search test of one row: the lowercased term occurs in the
      lowercased name, or the term as typed occurs in the id's numeral. */
  predicate Matches(c: Categoria, searchTerm: string) {
    Includes(ToLower(c.nombre), ToLower(searchTerm)) || Includes(IntToString(c.id), searchTerm)
  }

  function MatchesTerm(searchTerm: string): Categoria -> bool {
    c => Matches(c, searchTerm)
  }

  /** `filteredCategorias`. */
  function FilteredCategorias(categorias: seq<Categoria>, searchTerm: string): seq<Categoria> {
    Filter(categorias, MatchesTerm(searchTerm))
  }

  /** The filtered list is the order-preserving subsequence of the records
      that match, each matching record kept as often as it occurs. */
  lemma FilteredAreTheMatches(categorias: seq<Categoria>, searchTerm: string)
    ensures var r := FilteredCategorias(categorias, searchTerm);
      && IsSubsequence(r, categorias)
      && |r| <= |categorias|
      && (forall c :: c in r <==> c in categorias && Matches(c, searchTerm))
      && (forall c :: multiset(r)[c] == if Matches(c, searchTerm) then multiset(categorias)[c] else 0)
  {
    FilterIsSubsequence(categorias, MatchesTerm(searchTerm));
    FilterCounts(categorias, MatchesTerm(searchTerm));
    forall c ensures c in FilteredCategorias(categorias, searchTerm) <==> c in categorias && Matches(c, searchTerm) {
      FilterMembership(categorias, MatchesTerm(searchTerm), c);
    }
  }

  /** An empty search box shows every category. */
  lemma EmptyTermKeepsAll(categorias: seq<Categoria>)
    ensures FilteredCategorias(categorias, "") == categorias
  {
    forall i | 0 <= i < |categorias| ensures MatchesTerm("")(categorias[i]) {
      IncludesEmptyAndSelf(ToLower(categorias[i].nombre));
    }
    FilterKeepsAll(categorias, MatchesTerm(""));
  }

  /** Typing a category's id finds that category. */
  lemma IdTermFindsCategory(categorias: seq<Categoria>, c: Categoria)
    requires c in categorias
    ensures c in FilteredCategorias(categorias, IntToString(c.id))
  {
    IncludesEmptyAndSelf(IntToString(c.id));
    FilterMembership(categorias, MatchesTerm(IntToString(c.id)), c);
  }

  /** For a non-negative id, a term with a character other than a digit
      can only match through the name: the id's numeral is all digits. */
  lemma NonDigitTermMatchesByName(c: Categoria, searchTerm: string, k: nat)
    requires c.id >= 0 && k < |searchTerm| && !IsDigit(searchTerm[k])
    ensures Matches(c, searchTerm) <==> Includes(ToLower(c.nombre), ToLower(searchTerm))
  {
    if Includes(IntToString(c.id), searchTerm) {
      IncludedCharsSatisfy(IntToString(c.id), searchTerm, IsDigit);
      assert false;
    }
  }

  /** Two terms that differ only in letter case select the same rows: the
      raw term can match an id only when it is made of digits and '-',
      which lowering leaves alone. */
  lemma FilterIgnoresCase(categorias: seq<Categoria>, term: string, term': string)
    requires ToLower(term) == ToLower(term')
    ensures FilteredCategorias(categorias, term) == FilteredCategorias(categorias, term')
  {
    forall i | 0 <= i < |categorias|
      ensures Matches(categorias[i], term) == Matches(categorias[i], term')
    {
      var numeral := IntToString(categorias[i].id);
      if Includes(numeral, term) {
        IdMatchIgnoresCase(numeral, term, term');
      }
      if Includes(numeral, term') {
        IdMatchIgnoresCase(numeral, term', term);
      }
    }
    FilterAgreeing(categorias, MatchesTerm(term), MatchesTerm(term'));
  }

  lemma IdMatchIgnoresCase(numeral: string, term: string, term': string)
    requires ToLower(term) == ToLower(term')
    requires forall i :: 0 <= i < |numeral| ==> IsDigit(numeral[i]) || numeral[i] == '-'
    requires Includes(numeral, term)
    ensures term' == term
  {
    IncludedCharsSatisfy(numeral, term, c => IsDigit(c) || c == '-');
    assert |term'| == |ToLower(term')| == |ToLower(term)| == |term|;
    forall i | 0 <= i < |term| ensures term'[i] == term[i] {
      assert ToLower(term)[i] == ToLowerChar(term[i]) && ToLower(term')[i] == ToLowerChar(term'[i]);
      ToLowerFixesNonLetters(term[i], term[i]);
      ToLowerFixesNonLetters(term'[i], term[i]);
    }
  }

  /** Filtering the filtered list again with the same term changes nothing. */
  lemma FilterTwice(categorias: seq<Categoria>, searchTerm: string)
    ensures FilteredCategorias(FilteredCategorias(categorias, searchTerm), searchTerm)
         == FilteredCategorias(categorias, searchTerm)
  {
    FilterIdempotent(categorias, MatchesTerm(searchTerm));
  }

  datatype TableBody = Rows(rows: seq<Categoria>) | EmptyRow(message: string)

  datatype View = Spinner | Table(body: TableBody)

  /** The message of the table when no row is shown. */
  function EmptyMessage(searchTerm: string): string {
    if searchTerm != "" then NoMatches else NoneRegistered
  }

  /** What the page renders for its state. */
  function Render(loading: bool, categorias: seq<Categoria>, searchTerm: string): View {
    if loading then Spinner
    else
      var filtered := FilteredCategorias(categorias, searchTerm);
      if |filtered| > 0 then Table(Rows(filtered)) else Table(EmptyRow(EmptyMessage(searchTerm)))
  }

  /** Once loaded, the table shows rows exactly when some record matches;
      the message of an empty table depends only on whether the term is
      empty, and "nothing registered" means nothing was loaded. */
  lemma RenderedTable(categorias: seq<Categoria>, searchTerm: string)
    ensures Render(false, categorias, searchTerm).body.Rows?
        <==> exists c :: c in categorias && Matches(c, searchTerm)
    ensures Render(false, categorias, searchTerm) == Table(EmptyRow(NoneRegistered))
        <==> categorias == [] && searchTerm == ""
    ensures Render(false, categorias, searchTerm) == Table(EmptyRow(NoMatches))
        <==> searchTerm != "" && forall c :: c in categorias ==> !Matches(c, searchTerm)
  {
    FilteredAreTheMatches(categorias, searchTerm);
    var filtered := FilteredCategorias(categorias, searchTerm);
    if filtered != [] {
      assert filtered[0] in filtered;
    }
    if searchTerm == "" {
      EmptyTermKeepsAll(categorias);
    }
  }

  /** The page `ListaCategorias`, with the state its handlers change. */
  class ListaCategoriasPage {
    var categorias: seq<Categoria>
    var loading: bool
    var searchTerm: string
    var effects: seq<Effect>

    /** The initial state, before the mount effect runs `cargarDatos`. */
    constructor ()
      ensures categorias == [] && loading && searchTerm == "" && effects == []
      ensures View() == Spinner
    {
      categorias := [];
      loading := true;
      searchTerm := "";
      effects := [];
    }

    function View(): View
      reads this
    {
      Render(loading, categorias, searchTerm)
    }

    /** The search box's `onChange`. */
    method SetSearchTerm(value: string)
      modifies this`searchTerm
      ensures searchTerm == value
    {
      searchTerm := value;
    }

    /** `cargarDatos`: GET the list; keep the old list if the load fails;
        `loading` is false afterwards either way. */
    method CargarDatos(load: Load<Categoria>)
      modifies this`categorias, this`loading, this`effects
      ensures !loading
      ensures View().Table? && (View().body.Rows? <==> exists c :: c in categorias && Matches(c, searchTerm))
      ensures effects == old(effects) + [Fetch(GetRequest(ListUrl))]
      ensures categorias == if load.Loaded? then load.data else old(categorias)
    {
      loading := true;
      effects := effects + [Fetch(GetRequest(ListUrl))];
      if load.Loaded? {
        categorias := load.data;
      }
      loading := false;
      RenderedTable(categorias, searchTerm);
    }

    /** `eliminar(id)`: ask; only on a yes send the DELETE; once that
        request settles without rejecting, reload the list. */
    method Eliminar(id: int, confirmed: bool, deletion: Settled, reload: Load<Categoria>)
      modifies this`categorias, this`loading, this`effects
      ensures effects == old(effects) + [Confirm(DeleteQuestion)]
        + (if confirmed then [Fetch(Request(DELETE, ListUrl + "/" + IntToString(id), None))] else [])
        + (if confirmed && deletion.Resolved? then [Fetch(GetRequest(ListUrl))] else [])
      ensures confirmed && deletion.Resolved? ==>
        !loading && categorias == if reload.Loaded? then reload.data else old(categorias)
      ensures confirmed && deletion.Resolved? ==> View().Table?
      ensures !(confirmed && deletion.Resolved?) ==>
        loading == old(loading) && categorias == old(categorias)
    {
      effects := effects + [Confirm(DeleteQuestion)];
      if confirmed {
        effects := effects + [Fetch(Request(DELETE, ListUrl + "/" + IntToString(id), None))];
        if deletion.Resolved? {
          CargarDatos(reload);
        }
      }
    }
  }
}
