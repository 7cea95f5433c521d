/** The logic of the add-product form (app/addProduct.jsx): the input
    sanitisers, the field-by-field validation that builds the error map, the
    submission that sends the product only when that map is empty, and the
    edit handler that clears the edited field's error. */
module AddProductScreen {
  import opened Wrappers
  import Text
  import ProductController

  /** The form's fields, all text. */
  datatype Field = NameField | PriceField | StockField | PackSizeField | UnitField

  datatype Form = Form(name: string, price: string, stock: string, packSize: string, unit: string)

  const EmptyForm: Form := Form("", "", "", "", "")

  function Get(f: Form, field: Field): string {
    match field
    case NameField => f.name
    case PriceField => f.price
    case StockField => f.stock
    case PackSizeField => f.packSize
    case UnitField => f.unit
  }

  /** `{ ...prev, [name]: value }`. */
  function Set(f: Form, field: Field, value: string): (r: Form)
    ensures Get(r, field) == value
    ensures forall g | g != field :: Get(r, g) == Get(f, g)
  {
    match field
    case NameField => f.(name := value)
    case PriceField => f.(price := value)
    case StockField => f.(stock := value)
    case PackSizeField => f.(packSize := value)
    case UnitField => f.(unit := value)
  }

  const NameRequired: string := "Product name is required"
  const PriceRequired: string := "Price is required"
  const PriceNotNumber: string := "Price must be a number"
  const StockRequired: string := "Stock is required"
  const StockNotNumber: string := "Stock must be a number"
  const PackSizeRequired: string := "Pack size is required"
  const UnitRequired: string := "Unit is required"

  /** The check of a required field. */
  function RequiredError(missing: bool, required: string): Option<string> {
    if missing then Some(required) else None
  }

  /** The two-stage check of a number field: missing, then not a number. */
  function NumberError(text: string, required: string, notNumber: string): Option<string> {
    if text == [] then Some(required)
    else if !Text.IsNumericString(text) then Some(notNumber)
    else None
  }

  /** The check of one field: a blank name or pack size, an empty price, stock
      or unit, and a price or stock that `isNaN` rejects. */
  function ErrorOf(f: Form, field: Field): Option<string> {
    match field
    case NameField => RequiredError(Text.Trim(f.name) == [], NameRequired)
    case PriceField => NumberError(f.price, PriceRequired, PriceNotNumber)
    case StockField => NumberError(f.stock, StockRequired, StockNotNumber)
    case PackSizeField => RequiredError(Text.Trim(f.packSize) == [], PackSizeRequired)
    case UnitField => RequiredError(f.unit == [], UnitRequired)
  }

  const AllFields: set<Field> := {NameField, PriceField, StockField, PackSizeField, UnitField}

  /** `newErrors.field = message` when the check gives a message. */
  function Note(errors: map<Field, string>, field: Field, message: Option<string>): (r: map<Field, string>)
    ensures message.Some? ==> r == errors[field := message.value]
    ensures message.None? ==> r == errors
  {
    if message.Some? then errors[field := message.value] else errors
  }

  /** The map holding the messages of the field checks that fail. */
  function Collect(name: Option<string>, price: Option<string>, stock: Option<string>,
                   packSize: Option<string>, unit: Option<string>): (r: map<Field, string>)
    ensures r.Keys <= AllFields
    ensures (NameField in r <==> name.Some?) && (NameField in r ==> r[NameField] == name.value)
    ensures (PriceField in r <==> price.Some?) && (PriceField in r ==> r[PriceField] == price.value)
    ensures (StockField in r <==> stock.Some?) && (StockField in r ==> r[StockField] == stock.value)
    ensures (PackSizeField in r <==> packSize.Some?) && (PackSizeField in r ==> r[PackSizeField] == packSize.value)
    ensures (UnitField in r <==> unit.Some?) && (UnitField in r ==> r[UnitField] == unit.value)
  {
    Note(Note(Note(Note(Note(map[], NameField, name), PriceField, price), StockField, stock), PackSizeField, packSize), UnitField, unit)
  }

  /** Collecting the messages of the checks gives an entry for exactly the
      fields whose check fails. */
  lemma CollectAgrees(check: Field -> Option<string>)
    ensures var r := Collect(check(NameField), check(PriceField), check(StockField), check(PackSizeField), check(UnitField));
      forall field :: (field in r <==> check(field).Some?) && (field in r ==> r[field] == check(field).value)
  {
    var r := Collect(check(NameField), check(PriceField), check(StockField), check(PackSizeField), check(UnitField));
    forall field ensures (field in r <==> check(field).Some?) && (field in r ==> r[field] == check(field).value) {
      match field
      case NameField =>
      case PriceField =>
      case StockField =>
      case PackSizeField =>
      case UnitField =>
    }
  }

  function Checks(f: Form): Field -> Option<string> {
    (field: Field) => ErrorOf(f, field)
  }

  /** The error map of a form: one entry for each field whose check fails,
      holding that check's message. */
  function FormErrors(f: Form): (r: map<Field, string>)
    ensures forall field :: field in r <==> ErrorOf(f, field).Some?
    ensures forall field | field in r :: r[field] == ErrorOf(f, field).value
  {
    var check := Checks(f);
    CollectAgrees(check);
    Collect(check(NameField), check(PriceField), check(StockField), check(PackSizeField), check(UnitField))
  }

  /** `validateForm`'s successive checks build exactly the error map. */
  method ValidateForm(f: Form) returns (errors: map<Field, string>)
    ensures errors == FormErrors(f)
  {
    errors := map[];
    errors := CheckRequired(errors, NameField, Text.Trim(f.name) == [], NameRequired);
    errors := CheckNumber(errors, PriceField, f.price, PriceRequired, PriceNotNumber);
    errors := CheckNumber(errors, StockField, f.stock, StockRequired, StockNotNumber);
    errors := CheckRequired(errors, PackSizeField, Text.Trim(f.packSize) == [], PackSizeRequired);
    errors := CheckRequired(errors, UnitField, f.unit == [], UnitRequired);
    assert ErrorOf(f, NameField) == RequiredError(Text.Trim(f.name) == [], NameRequired);
    assert ErrorOf(f, PriceField) == NumberError(f.price, PriceRequired, PriceNotNumber);
    assert ErrorOf(f, StockField) == NumberError(f.stock, StockRequired, StockNotNumber);
    assert ErrorOf(f, PackSizeField) == RequiredError(Text.Trim(f.packSize) == [], PackSizeRequired);
    assert ErrorOf(f, UnitField) == RequiredError(f.unit == [], UnitRequired);
    assert errors == Collect(ErrorOf(f, NameField), ErrorOf(f, PriceField), ErrorOf(f, StockField),
                             ErrorOf(f, PackSizeField), ErrorOf(f, UnitField));
    FormErrorsCollects(f);
  }

  lemma FormErrorsCollects(f: Form)
    ensures FormErrors(f) == Collect(ErrorOf(f, NameField), ErrorOf(f, PriceField), ErrorOf(f, StockField),
                                     ErrorOf(f, PackSizeField), ErrorOf(f, UnitField))
  {
    var check := Checks(f);
    assert check(NameField) == ErrorOf(f, NameField) && check(PriceField) == ErrorOf(f, PriceField);
    assert check(StockField) == ErrorOf(f, StockField) && check(PackSizeField) == ErrorOf(f, PackSizeField);
    assert check(UnitField) == ErrorOf(f, UnitField);
  }

  /** `if (missing) e[field] = required;` */
  method CheckRequired(errors: map<Field, string>, field: Field, missing: bool, required: string)
    returns (e: map<Field, string>)
    ensures e == Note(errors, field, RequiredError(missing, required))
  {
    e := errors;
    if missing {
      e := e[field := required];
    }
  }

  /** `if (!text) e[field] = required; else if (isNaN(text)) e[field] = notNumber;` */
  method CheckNumber(errors: map<Field, string>, field: Field, text: string, required: string, notNumber: string)
    returns (e: map<Field, string>)
    ensures e == Note(errors, field, NumberError(text, required, notNumber))
  {
    e := errors;
    if text == [] {
      e := e[field := required];
    } else if !Text.IsNumericString(text) {
      e := e[field := notNumber];
    }
  }

  /** The form is valid, with an empty error map, exactly when no field's
      check fails. */
  lemma ValidIffNoCheckFails(f: Form)
    ensures FormErrors(f) == map[] <==> forall field :: ErrorOf(f, field).None?
  {
    var r := FormErrors(f);
    if forall field :: ErrorOf(f, field).None? {
      forall field ensures field !in r {
      }
    } else {
      var field :| ErrorOf(f, field).Some?;
      assert field in r;
    }
  }

  /** No field's check fails exactly when the name and pack size are not
      blank, the price and stock are given and numeric, and a unit is chosen. */
  lemma ChecksPassIff(f: Form)
    ensures (forall field :: ErrorOf(f, field).None?) <==>
      && Text.Trim(f.name) != []
      && f.price != [] && Text.IsNumericString(f.price)
      && f.stock != [] && Text.IsNumericString(f.stock)
      && Text.Trim(f.packSize) != []
      && f.unit != []
  {
    if !forall field :: ErrorOf(f, field).None? {
      var field :| ErrorOf(f, field).Some?;
      match field
      case NameField =>
      case PriceField =>
      case StockField =>
      case PackSizeField =>
      case UnitField =>
    } else {
      assert ErrorOf(f, NameField).None? && ErrorOf(f, PriceField).None? && ErrorOf(f, StockField).None?;
      assert ErrorOf(f, PackSizeField).None? && ErrorOf(f, UnitField).None?;
    }
  }

  /** A digit string has no decimal point. */
  lemma {:induction false} DigitsHaveNoPoint(s: string)
    requires Text.AllDigits(s)
    ensures Text.CountChar(s, '.') == 0
  {
    if s != [] {
      DigitsHaveNoPoint(s[1..]);
    }
  }

  /** Behind the stock sanitiser, the stock only ever fails as missing. */
  lemma SanitisedStockError(f: Form, input: string)
    ensures ErrorOf(f.(stock := Text.KeepDigits(input)), StockField) ==
      if Text.KeepDigits(input) == [] then Some(StockRequired) else None
  {
    var d := Text.KeepDigits(input);
    if d != [] {
      DigitsHaveNoPoint(d);
      Text.NumericPriceText(d);
    }
  }

  /** Behind the price sanitiser, a non-empty price fails as not a number
      exactly when it has more than one point or no digit. */
  lemma SanitisedPriceError(f: Form, input: string)
    requires Text.KeepPriceChars(input) != []
    ensures var p := Text.KeepPriceChars(input);
      ErrorOf(f.(price := p), PriceField) == Some(PriceNotNumber) <==> Text.CountChar(p, '.') > 1 || Text.CountChar(p, '.') == |p|
    ensures ErrorOf(f.(price := Text.KeepPriceChars(input)), PriceField) != Some(PriceRequired)
  {
    Text.NumericPriceText(Text.KeepPriceChars(input));
  }

  /** `errors[name]` truthy: there is a non-empty message for that field. */
  predicate HasError(errors: map<Field, string>, field: Field) {
    field in errors && errors[field] != []
  }

  /** `setErrors(prev => ({ ...prev, [name]: '' }))` when that field had an
      error: its message is emptied and every other message stays. */
  function Cleared(errors: map<Field, string>, field: Field): (r: map<Field, string>)
    ensures r.Keys == errors.Keys
    ensures forall g | g in errors && g != field :: r[g] == errors[g]
    ensures !HasError(r, field)
    ensures !HasError(errors, field) ==> r == errors
  {
    if HasError(errors, field) then errors[field := ""] else errors
  }

  /** The body `handleSubmit` sends. `parseFloat` on the price is read as
      `parseInt`: prices are whole numbers here. */
  function Body(f: Form): (b: ProductController.ProductBody)
    ensures b.name == Some(f.name) && b.packSize == Some(f.packSize) && b.unit == Some(f.unit)
    ensures b.price == Text.ParseInt(f.price) && b.stock == Text.ParseInt(f.stock)
  {
    ProductController.ProductBody(Some(f.name), Text.ParseInt(f.price), Text.ParseInt(f.stock), Some(f.packSize), Some(f.unit))
  }

  /** A form the screen accepts with a typed stock of `0` (or `00`, ...) is
      refused by the server's required-fields check. */
  lemma ZeroStockPassesFormNotServer(f: Form)
    requires f.stock != [] && Text.AllDigits(f.stock) && Text.DigitsValue(f.stock) == 0
    ensures ErrorOf(f, StockField).None?
    ensures !ProductController.AllGiven(Body(f))
  {
    assert f.stock + "" == f.stock;
    Text.ParseIntNumeral(f.stock, "");
    DigitsHaveNoPoint(f.stock);
    Text.NumericPriceText(f.stock);
    ProductController.ControllerRefusesZero(Body(f));
  }

  class AddProductForm {
    var form: Form
    var errors: map<Field, string>
    var submitting: bool

    constructor ()
      ensures form == EmptyForm && errors == map[] && !submitting
    {
      form := EmptyForm;
      errors := map[];
      submitting := false;
    }

    /** `handleChange`: stores the value and empties that field's message, if
        it had one; the other messages stay. */
    method HandleChange(field: Field, value: string)
      modifies this
      ensures form == Set(old(form), field, value)
      ensures errors == Cleared(old(errors), field)
      ensures submitting == old(submitting)
    {
      form := Set(form, field, value);
      errors := Cleared(errors, field);
    }

    /** The price input keeps digits and points. */
    method EditPrice(text: string)
      modifies this
      ensures form == old(form).(price := Text.KeepPriceChars(text))
      ensures errors == Cleared(old(errors), PriceField) && submitting == old(submitting)
    {
      HandleChange(PriceField, Text.KeepPriceChars(text));
    }

    /** The stock input keeps digits. */
    method EditStock(text: string)
      modifies this
      ensures form == old(form).(stock := Text.KeepDigits(text))
      ensures errors == Cleared(old(errors), StockField) && submitting == old(submitting)
    {
      HandleChange(StockField, Text.KeepDigits(text));
    }

    /** `handleSubmit`: validates, and sends the body only when there is no
        error; `submitting` is set for the request and cleared after it. */
    method HandleSubmit() returns (sent: Option<ProductController.ProductBody>)
      modifies this
      ensures errors == FormErrors(old(form)) && form == old(form)
      ensures sent.Some? <==> errors == map[]
      ensures sent.Some? ==> sent.value == Body(form)
      ensures sent.Some? ==> !submitting
      ensures sent.None? ==> submitting == old(submitting)
    {
      errors := ValidateForm(form);
      if errors == map[] {
        submitting := true;
        sent := Some(Body(form));
        submitting := false;
      } else {
        sent := None;
      }
    }
  }
}
