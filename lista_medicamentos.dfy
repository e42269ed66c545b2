/**
 * The medication list page: the records loaded from /api/medicamentos,
 * the search box filter over name and category name, the stock badge,
 * the message of an empty table, and the confirm-delete-reload sequence.
 */
module ListaMedicamentos {
  import opened Wrappers
  import opened JsString
  import opened Sequences
  import opened Browser

  datatype CategoriaNombre = CategoriaNombre(nombre: string)

  datatype Medicamento = Medicamento(id: int, nombre: string, precio: real, stock: int, categoria: CategoriaNombre)

  const ListUrl := "/api/medicamentos"
  const DeleteQuestion := "¿Estás seguro de eliminar este medicamento?"
  const NoMatches := "No se encontraron medicamentos con ese criterio"
  const NoneRegistered := "No hay medicamentos registrados"

  /** The search test of one row: the lowercased term occurs in the
      lowercased medication name or in the lowercased category name. */
  predicate Matches(m: Medicamento, searchTerm: string) {
    Includes(ToLower(m.nombre), ToLower(searchTerm))
    || Includes(ToLower(m.categoria.nombre), ToLower(searchTerm))
  }

  function MatchesTerm(searchTerm: string): Medicamento -> bool {
    m => Matches(m, searchTerm)
  }

  /** `filteredMedicamentos`. */
  function FilteredMedicamentos(medicamentos: seq<Medicamento>, searchTerm: string): seq<Medicamento> {
    Filter(medicamentos, MatchesTerm(searchTerm))
  }

  /** The filtered list is the order-preserving subsequence of the records
      that match, each matching record kept as often as it occurs. */
  lemma FilteredAreTheMatches(medicamentos: seq<Medicamento>, searchTerm: string)
    ensures var r := FilteredMedicamentos(medicamentos, searchTerm);
      && IsSubsequence(r, medicamentos)
      && |r| <= |medicamentos|
      && (forall m :: m in r <==> m in medicamentos && Matches(m, searchTerm))
      && (forall m :: multiset(r)[m] == if Matches(m, searchTerm) then multiset(medicamentos)[m] else 0)
  {
    FilterIsSubsequence(medicamentos, MatchesTerm(searchTerm));
    FilterCounts(medicamentos, MatchesTerm(searchTerm));
    forall m ensures m in FilteredMedicamentos(medicamentos, searchTerm) <==> m in medicamentos && Matches(m, searchTerm) {
      FilterMembership(medicamentos, MatchesTerm(searchTerm), m);
    }
  }

  /** An empty search box shows every medication. */
  lemma EmptyTermKeepsAll(medicamentos: seq<Medicamento>)
    ensures FilteredMedicamentos(medicamentos, "") == medicamentos
  {
    forall i | 0 <= i < |medicamentos| ensures MatchesTerm("")(medicamentos[i]) {
      IncludesEmptyAndSelf(ToLower(medicamentos[i].nombre));
    }
    FilterKeepsAll(medicamentos, MatchesTerm(""));
  }

  /** Two terms that differ only in letter case select the same rows. */
  lemma FilterIgnoresCase(medicamentos: seq<Medicamento>, term: string, term': string)
    requires ToLower(term) == ToLower(term')
    ensures FilteredMedicamentos(medicamentos, term) == FilteredMedicamentos(medicamentos, term')
  {
    FilterAgreeing(medicamentos, MatchesTerm(term), MatchesTerm(term'));
  }

  /** In particular, a lowercased term selects what the term selects. */
  lemma FilterLowercasedTerm(medicamentos: seq<Medicamento>, term: string)
    ensures FilteredMedicamentos(medicamentos, ToLower(term)) == FilteredMedicamentos(medicamentos, term)
  {
    ToLowerIdempotent(term);
    FilterIgnoresCase(medicamentos, ToLower(term), term);
  }

  /** Filtering the filtered list again with the same term changes nothing. */
  lemma FilterTwice(medicamentos: seq<Medicamento>, searchTerm: string)
    ensures FilteredMedicamentos(FilteredMedicamentos(medicamentos, searchTerm), searchTerm)
         == FilteredMedicamentos(medicamentos, searchTerm)
  {
    FilterIdempotent(medicamentos, MatchesTerm(searchTerm));
  }

  /** The term "parac" finds "Paracetamol 500mg" whatever its category. */
  lemma ParacFindsParacetamol(id: int, precio: real, stock: int, categoria: CategoriaNombre)
    ensures Matches(Medicamento(id, "Paracetamol 500mg", precio, stock, categoria), "parac")
  {
    var lowered := ToLower("Paracetamol 500mg");
    assert lowered[0..5] == "parac";
    IncludesAt(lowered, ToLower("parac"), 0);
  }

  datatype Badge = Green | Red

  /** The colour of the stock badge of a row. */
  function StockBadge(stock: int): Badge {
    if stock > 10 then Green else Red
  }

  /** Ten units or fewer show red, eleven or more green; more stock never
      turns a green badge red. */
  lemma StockBadgeThreshold(stock: int, stock': int)
    requires stock <= stock'
    ensures StockBadge(10) == Red && StockBadge(11) == Green
    ensures StockBadge(stock) == Green ==> StockBadge(stock') == Green
    ensures StockBadge(stock') == Red ==> StockBadge(stock) == Red
  {
  }

  datatype TableBody = Rows(rows: seq<Medicamento>) | EmptyRow(message: string)

  datatype View = Spinner | Table(body: TableBody)

  /** The message of the table when no row is shown: a non-empty search
      term (truthy in JavaScript) means no match, else nothing registered. */
  function EmptyMessage(searchTerm: string): string {
    if searchTerm != "" then NoMatches else NoneRegistered
  }

  /** What the page renders for its state. */
  function Render(loading: bool, medicamentos: seq<Medicamento>, searchTerm: string): View {
    if loading then Spinner
    else
      var filtered := FilteredMedicamentos(medicamentos, searchTerm);
      if |filtered| > 0 then Table(Rows(filtered)) else Table(EmptyRow(EmptyMessage(searchTerm)))
  }

  /** Once loaded, the table shows rows exactly when some record matches;
      "nothing registered" appears only when no medication was loaded and
      the term is empty, and "no match" only for a non-empty term. */
  lemma RenderedTable(medicamentos: seq<Medicamento>, searchTerm: string)
    ensures Render(false, medicamentos, searchTerm).body.Rows?
        <==> exists m :: m in medicamentos && Matches(m, searchTerm)
    ensures Render(false, medicamentos, searchTerm) == Table(EmptyRow(NoneRegistered))
        <==> medicamentos == [] && searchTerm == ""
    ensures Render(false, medicamentos, searchTerm) == Table(EmptyRow(NoMatches))
        <==> searchTerm != "" && forall m :: m in medicamentos ==> !Matches(m, searchTerm)
  {
    FilteredAreTheMatches(medicamentos, searchTerm);
    var filtered := FilteredMedicamentos(medicamentos, searchTerm);
    if filtered != [] {
      assert filtered[0] in filtered;
    }
    if searchTerm == "" {
      EmptyTermKeepsAll(medicamentos);
    }
  }

  /** The page `ListaMedicamentos`, with the state its handlers change. */
  class ListaMedicamentosPage {
    var medicamentos: seq<Medicamento>
    var loading: bool
    var searchTerm: string
    var effects: seq<Effect>

    /** The initial state, before the mount effect runs `cargarDatos`. */
    constructor ()
      ensures medicamentos == [] && loading && searchTerm == "" && effects == []
      ensures View() == Spinner
    {
      medicamentos := [];
      loading := true;
      searchTerm := "";
      effects := [];
    }

    function View(): View
      reads this
    {
      Render(loading, medicamentos, searchTerm)
    }

    /** The search box's `onChange`. */
    method SetSearchTerm(value: string)
      modifies this`searchTerm
      ensures searchTerm == value
    {
      searchTerm := value;
    }

    /** `cargarDatos`: GET the list; keep the old list if the load fails;
        `loading` is false afterwards either way. */
    method CargarDatos(load: Load<Medicamento>)
      modifies this`medicamentos, this`loading, this`effects
      ensures !loading
      ensures View().Table? && (View().body.Rows? <==> exists m :: m in medicamentos && Matches(m, searchTerm))
      ensures effects == old(effects) + [Fetch(GetRequest(ListUrl))]
      ensures medicamentos == if load.Loaded? then load.data else old(medicamentos)
    {
      loading := true;
      effects := effects + [Fetch(GetRequest(ListUrl))];
      if load.Loaded? {
        medicamentos := load.data;
      }
      loading := false;
      RenderedTable(medicamentos, searchTerm);
    }

    /** `eliminar(id)`: ask; only on a yes send the DELETE; once that
        request settles without rejecting, reload the list. */
    method Eliminar(id: int, confirmed: bool, deletion: Settled, reload: Load<Medicamento>)
      modifies this`medicamentos, this`loading, this`effects
      ensures effects == old(effects) + [Confirm(DeleteQuestion)]
        + (if confirmed then [Fetch(Request(DELETE, ListUrl + "/" + IntToString(id), None))] else [])
        + (if confirmed && deletion.Resolved? then [Fetch(GetRequest(ListUrl))] else [])
      ensures confirmed && deletion.Resolved? ==>
        !loading && medicamentos == if reload.Loaded? then reload.data else old(medicamentos)
      ensures confirmed && deletion.Resolved? ==> View().Table?
      ensures !(confirmed && deletion.Resolved?) ==>
        loading == old(loading) && medicamentos == old(medicamentos)
    {
      effects := effects + [Confirm(DeleteQuestion)];
      if confirmed {
        effects := effects + [Fetch(Request(DELETE, ListUrl + "/" + IntToString(id), None))];
        if deletion.Resolved? {
          CargarDatos(reload);
        }
      }
    }
  }
}
