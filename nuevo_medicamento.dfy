/**
 * The new-medication form: four text fields, the rules `validateForm`
 * checks before anything is sent, the change handler that clears a
 * field's error, the request body, and the submit flow around `loading`.
 */
module NuevoMedicamento {
  import opened Wrappers
  import opened JsString
  import opened JsNumber
  import opened Browser

  datatype Field = Nombre | Precio | Stock | CategoriaId

  const Fields: set<Field> := {Nombre, Precio, Stock, CategoriaId}

  /** The form state `med`: every field is the text of its control. */
  datatype Med = Med(nombre: string, precio: string, stock: string, categoriaId: string)

  datatype Categoria = Categoria(id: int, nombre: string)

  const EmptyMed := Med("", "", "", "")
  const CreateUrl := "/api/medicamentos"
  const ListPath := "/medicamentos"
  const SaveFailed := "Ocurrió un error al guardar el medicamento"

  const NombreRequerido := "El nombre es requerido"
  const PrecioRequerido := "El precio es requerido"
  const PrecioPositivo := "El precio debe ser mayor a 0"
  const StockRequerido := "El stock es requerido"
  const StockNegativo := "El stock no puede ser negativo"
  const CategoriaRequerida := "Debe seleccionar una categoría"

  function Get(med: Med, f: Field): string {
    match f
    case Nombre => med.nombre
    case Precio => med.precio
    case Stock => med.stock
    case CategoriaId => med.categoriaId
  }

  /** `{ ...med, [name]: value }`: the field named changes, no other. */
  function With(med: Med, name: Field, value: string): (med': Med)
    ensures forall f :: Get(med', f) == if f == name then value else Get(med, f)
  {
    match name
    case Nombre => med.(nombre := value)
    case Precio => med.(precio := value)
    case Stock => med.(stock := value)
    case CategoriaId => med.(categoriaId := value)
  }

  /** The message `validateForm` records for field `f`, if one. */
  function Rule(med: Med, f: Field): Option<string> {
    match f
    case Nombre =>
      if Trim(med.nombre) == "" then Some(NombreRequerido) else None
    case Precio =>
      if med.precio == "" then Some(PrecioRequerido)
      else if AtMost(ParseFloat(med.precio), 0.0) then Some(PrecioPositivo)
      else None
    case Stock =>
      if med.stock == "" then Some(StockRequerido)
      else if LessThan(ParseInt(med.stock), 0.0) then Some(StockNegativo)
      else None
    case CategoriaId =>
      if med.categoriaId == "" then Some(CategoriaRequerida) else None
  }

  /** The error dictionary `validateForm` builds: one entry per rule that fires. */
  function RuleErrors(med: Med): map<Field, string> {
    map f | f in Fields && Rule(med, f).Some? :: Rule(med, f).value
  }

  /** Every field has its entry in the dictionary exactly when its rule
      fires, holding that rule's message. */
  lemma RuleErrorsByField(med: Med)
    ensures forall f :: f in RuleErrors(med) <==> Rule(med, f).Some?
    ensures forall f :: f in RuleErrors(med) ==> RuleErrors(med)[f] == Rule(med, f).value
  {
    forall f ensures f in Fields {
      assert f.Nombre? || f.Precio? || f.Stock? || f.CategoriaId?;
    }
  }

  /** A dictionary with an entry exactly for the rules that fire, holding
      their messages, is the dictionary `validateForm` builds. */
  lemma RuleErrorsUnique(med: Med, errors: map<Field, string>)
    requires forall f :: f in errors <==> Rule(med, f).Some?
    requires forall f :: f in errors ==> errors[f] == Rule(med, f).value
    ensures errors == RuleErrors(med)
  {
    RuleErrorsByField(med);
  }

  /** The form passes exactly when none of the four rules fires: a name
      with a non-whitespace character, a price given and not parsing to a
      number at most 0, a stock given and not parsing to a negative
      number, and a category selected. */
  lemma ValidIffNoRuleFires(med: Med)
    ensures RuleErrors(med) == map[] <==>
      && Trim(med.nombre) != ""
      && med.precio != "" && !AtMost(ParseFloat(med.precio), 0.0)
      && med.stock != "" && !LessThan(ParseInt(med.stock), 0.0)
      && med.categoriaId != ""
  {
    RuleErrorsByField(med);
    if RuleErrors(med) != map[] {
      var f :| f in RuleErrors(med);
      assert f.Nombre? || f.Precio? || f.Stock? || f.CategoriaId?;
    } else {
      assert Nombre !in RuleErrors(med) && Precio !in RuleErrors(med);
      assert Stock !in RuleErrors(med) && CategoriaId !in RuleErrors(med);
    }
  }

  /** An empty price or stock gets the "required" message, never the
      numeric one; the numeric message needs a non-empty field. */
  lemma RequiredTakesPrecedence(med: Med)
    ensures med.precio == "" ==> Rule(med, Precio) == Some(PrecioRequerido)
    ensures med.stock == "" ==> Rule(med, Stock) == Some(StockRequerido)
    ensures Rule(med, Precio) == Some(PrecioPositivo) <==> med.precio != "" && AtMost(ParseFloat(med.precio), 0.0)
    ensures Rule(med, Stock) == Some(StockNegativo) <==> med.stock != "" && LessThan(ParseInt(med.stock), 0.0)
  {
  }

  /** A name of whitespace only is rejected as missing. */
  lemma BlankNombreRejected(med: Med)
    requires AllWhitespace(med.nombre)
    ensures Rule(med, Nombre) == Some(NombreRequerido)
  {
    TrimSpec(med.nombre);
  }

  /** A stock of "0" passes; a price of "0" is rejected as not positive. */
  lemma ZeroStockAcceptedZeroPriceRejected(med: Med)
    requires med.stock == "0" && med.precio == "0"
    ensures Rule(med, Stock) == None
    ensures Rule(med, Precio) == Some(PrecioPositivo)
  {
    assert DigitsValue("0", 10) == 0 by {
      assert "0"[..0] == [];
    }
    ParseIntOfDigits("0");
    ParseFloatOfDigits("0");
    assert ParseInt(med.stock) == Finite(0.0);
    assert ParseFloat(med.precio) == Finite(0.0);
  }

  /** A price or stock given as digits passes exactly when the number is
      positive (price) or in any case (stock). */
  lemma DigitFieldsRule(med: Med)
    requires med.precio != [] && forall i :: 0 <= i < |med.precio| ==> IsDigit(med.precio[i])
    requires med.stock != [] && forall i :: 0 <= i < |med.stock| ==> IsDigit(med.stock[i])
    ensures Rule(med, Precio) == None <==> DigitsValue(med.precio, 10) > 0
    ensures Rule(med, Stock) == None
  {
    ParseFloatOfDigits(med.precio);
    ParseIntOfDigits(med.stock);
  }

  /** Non-numeric text in the price or stock field passes the sign checks:
      it parses to NaN, and every comparison with NaN is false. */
  lemma NonNumericPassesSignChecks(med: Med)
    requires med.precio != [] && !IsWhitespace(med.precio[0]) && !IsDigit(med.precio[0])
    requires med.precio[0] !in "+-.I"
    requires med.stock != [] && !IsWhitespace(med.stock[0]) && !IsDigit(med.stock[0])
    requires med.stock[0] !in "+-.I"
    ensures Rule(med, Precio) == None && Rule(med, Stock) == None
  {
    ParseNonNumeric(med.precio);
    ParseNonNumeric(med.stock);
  }

  /** The POST body: the trimmed name and the parsed numbers. */
  function Payload(med: Med): Body {
    MedicamentoBody(
      Trim(med.nombre),
      ToJson(ParseFloat(med.precio)),
      ToJson(ParseInt(med.stock)),
      ToJson(ParseInt(med.categoriaId)))
  }

  /** What a form that passes validation sends: a non-empty trimmed name
      with no whitespace at either end, a price that is null or positive,
      and a stock that is null or not negative. */
  lemma PayloadOfValidForm(med: Med)
    requires RuleErrors(med) == map[]
    ensures var body := Payload(med);
      && body.nombre == Trim(med.nombre) && body.nombre != ""
      && !IsWhitespace(body.nombre[0]) && !IsWhitespace(body.nombre[|body.nombre| - 1])
      && (body.precio.Some? ==> body.precio.value > 0.0)
      && (body.stock.Some? ==> body.stock.value >= 0.0)
  {
    ValidIffNoRuleFires(med);
    TrimSpec(med.nombre);
    var body := Payload(med);
    assert body.precio == ToJson(ParseFloat(med.precio)) && body.stock == ToJson(ParseInt(med.stock));
    PassingNumbersInJson(ParseFloat(med.precio), ParseInt(med.stock));
  }

  lemma PassingNumbersInJson(precio: Number, stock: Number)
    requires !AtMost(precio, 0.0) && !LessThan(stock, 0.0)
    ensures ToJson(precio).Some? ==> ToJson(precio).value > 0.0
    ensures ToJson(stock).Some? ==> ToJson(stock).value >= 0.0
  {
  }

  /** The values of the category `<select>`: the placeholder "" and each
      loaded category's id as a numeral. */
  function OptionValues(categorias: seq<Categoria>): seq<string> {
    [""] + seq(|categorias|, k requires 0 <= k < |categorias| => IntToString(categorias[k].id))
  }

  /** Choosing the placeholder fails validation; choosing a category sends
      exactly that category's id. */
  lemma SelectedOptionRoundTrips(med: Med, categorias: seq<Categoria>, k: nat)
    requires k < |OptionValues(categorias)|
    ensures var chosen := With(med, CategoriaId, OptionValues(categorias)[k]);
      && (k == 0 ==> Rule(chosen, CategoriaId) == Some(CategoriaRequerida))
      && (k > 0 ==>
            Rule(chosen, CategoriaId) == None && Payload(chosen).categoriaId == Some(categorias[k - 1].id as real))
  {
    if k > 0 {
      var v := IntToString(categorias[k - 1].id);
      ParseIntOfIntToString(categorias[k - 1].id);
      assert v != "";
    }
  }

  /** The error update of `handleChange`: an error shown (a non-empty
      message) for the field edited becomes "", everything else stays. */
  function ClearError(errors: map<Field, string>, name: Field): (errors': map<Field, string>)
    ensures errors'.Keys == errors.Keys
    ensures forall f :: f in errors' ==> errors'[f] == if f == name then "" else errors[f]
  {
    if name in errors && errors[name] != "" then errors[name := ""] else errors
  }

  /** The page `NuevoMedicamento`, with the state its handlers change. */
  class NuevoMedicamentoPage {
    var categorias: seq<Categoria>
    var med: Med
    var loading: bool
    var errors: map<Field, string>
    var effects: seq<Effect>

    constructor ()
      ensures categorias == [] && med == EmptyMed && !loading && errors == map[] && effects == []
    {
      categorias := [];
      med := EmptyMed;
      loading := false;
      errors := map[];
      effects := [];
    }

    /** Whether the error of field `f` is on screen. */
    predicate Shows(f: Field)
      reads this
    {
      f in errors && errors[f] != ""
    }

    /** The submit button's `disabled`. */
    predicate SubmitDisabled()
      reads this
    {
      loading
    }

    /** The mount effect: GET the categories; on failure keep none. */
    method FetchCategorias(load: Load<Categoria>)
      modifies this`categorias, this`effects
      ensures effects == old(effects) + [Fetch(GetRequest("/api/categorias"))]
      ensures categorias == if load.Loaded? then load.data else old(categorias)
    {
      effects := effects + [Fetch(GetRequest("/api/categorias"))];
      if load.Loaded? {
        categorias := load.data;
      }
    }

    /** `handleChange` for the control named `name`. */
    method HandleChange(name: Field, value: string)
      modifies this`med, this`errors
      ensures med == With(old(med), name, value)
      ensures errors == ClearError(old(errors), name)
      ensures !Shows(name) && forall f :: f != name ==> Shows(f) == old(Shows(f))
    {
      med := With(med, name, value);
      if name in errors && errors[name] != "" {
        errors := errors[name := ""];
      }
    }

    /** `validateForm`: build the error dictionary one rule at a time,
        install it, and report whether it is empty. */
    method ValidateForm() returns (valid: bool)
      modifies this`errors
      ensures errors == RuleErrors(med)
      ensures valid <==> forall f :: Rule(med, f).None?
    {
      var newErrors: map<Field, string> := map[];
      if Trim(med.nombre) == "" {
        newErrors := newErrors[Nombre := NombreRequerido];
      }
      if med.precio == "" {
        newErrors := newErrors[Precio := PrecioRequerido];
      } else if AtMost(ParseFloat(med.precio), 0.0) {
        newErrors := newErrors[Precio := PrecioPositivo];
      }
      if med.stock == "" {
        newErrors := newErrors[Stock := StockRequerido];
      } else if LessThan(ParseInt(med.stock), 0.0) {
        newErrors := newErrors[Stock := StockNegativo];
      }
      if med.categoriaId == "" {
        newErrors := newErrors[CategoriaId := CategoriaRequerida];
      }
      forall f ensures (f in newErrors <==> Rule(med, f).Some?) && (f in newErrors ==> newErrors[f] == Rule(med, f).value) {
        assert f.Nombre? || f.Precio? || f.Stock? || f.CategoriaId?;
      }
      RuleErrorsUnique(med, newErrors);
      errors := newErrors;
      valid := |newErrors| == 0;
      assert valid <==> newErrors == map[];
    }

    /** The `fetch` of the submit flow; it goes out only while `loading`. */
    method Send(request: Request)
      requires SubmitDisabled()
      modifies this`effects
      ensures effects == old(effects) + [Fetch(request)]
    {
      effects := effects + [Fetch(request)];
    }

    /** `handleSubmit`, with the POST's outcome as input. A form that fails
        validation sends nothing and leaves `loading` alone; otherwise the
        POST goes out with `loading` set, an ok response navigates to the
        list, anything else shows an alert, and `loading` ends false. */
    method HandleSubmit(response: Response)
      requires !SubmitDisabled()
      modifies this`errors, this`loading, this`effects
      ensures errors == RuleErrors(med)
      ensures !loading
      ensures RuleErrors(med) != map[] ==> effects == old(effects)
      ensures RuleErrors(med) == map[] ==>
        effects == old(effects) + [Fetch(Request(POST, CreateUrl, Some(Payload(med))))]
          + [if response.Answered? && response.ok then Navigate(ListPath) else Alert(SaveFailed)]
    {
      var valid := ValidateForm();
      RuleErrorsByField(med);
      if !valid {
        return;
      }
      loading := true;
      Send(Request(POST, CreateUrl, Some(Payload(med))));
      if response.Answered? && response.ok {
        effects := effects + [Navigate(ListPath)];
      } else {
        effects := effects + [Alert(SaveFailed)];
      }
      loading := false;
    }
  }
}
