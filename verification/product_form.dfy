/** The add/edit product form (src/components/inventory/ProductForm.tsx): its
    field updates, the validation that fills the error messages, and the
    submit gate. */
module ProductForm {
  import opened Common

  /** The form's data. Numeric fields hold what `parseFloat(...) || 0`
      produced. */
  datatype FormData = FormData(
    id: string, name: string, description: string, price: real, cost: real,
    category: string, sku: string, stock: real, reorderPoint: real, isActive: bool)

  /** The data of an empty form. */
  function DefaultProduct(): FormData {
    FormData("", "", "", 0.0, 0.0, "", "", 0.0, 5.0, true)
  }

  /** The card's title: an existing product (one with an id) is edited,
      otherwise a new one is added. */
  function Title(product: FormData): (t: string)
    ensures t == "Edit Produk" <==> product.id != ""
    ensures t == "Tambah Produk Baru" <==> product.id == ""
  {
    if product.id != "" then "Edit Produk" else "Tambah Produk Baru"
  }

  /** The `name` attributes of the inputs wired to `handleChange`. */
  datatype InputName = NameInput | SkuInput | DescriptionInput | PriceInput | CostInput | StockInput | ReorderPointInput

  /** Inputs whose value is stored as a number. */
  predicate IsNumericInput(n: InputName) {
    n == PriceInput || n == CostInput || n == StockInput || n == ReorderPointInput
  }

  /** `parseFloat(value) || 0`, for text whose number is the digits it
      starts with. */
  function NumberOrZero(value: string): (r: real)
    ensures r >= 0.0
    ensures (|value| == 0 || !IsDigit(value[0])) ==> r == 0.0
  {
    ParseIntOrZero(value) as real
  }

  /** `handleChange`: the named field takes the typed value, as a number for
      the numeric fields and as text for the others. */
  function ChangeField(f: FormData, n: InputName, value: string): FormData {
    match n
    case NameInput => f.(name := value)
    case SkuInput => f.(sku := value)
    case DescriptionInput => f.(description := value)
    case PriceInput => f.(price := NumberOrZero(value))
    case CostInput => f.(cost := NumberOrZero(value))
    case StockInput => f.(stock := NumberOrZero(value))
    case ReorderPointInput => f.(reorderPoint := NumberOrZero(value))
  }

  /** The field an input writes, read back from the form as text or number. */
  function TextOf(f: FormData, n: InputName): string {
    match n
    case NameInput => f.name
    case SkuInput => f.sku
    case DescriptionInput => f.description
    case _ => ""
  }

  function NumberOf(f: FormData, n: InputName): real {
    match n
    case PriceInput => f.price
    case CostInput => f.cost
    case StockInput => f.stock
    case ReorderPointInput => f.reorderPoint
    case _ => 0.0
  }

  /** A change stores the value in the named field, converted for the
      numeric ones, and leaves every other field, the id, the category and
      the active switch as they were. */
  lemma ChangeOnlyNamedField(f: FormData, n: InputName, value: string)
    ensures var g := ChangeField(f, n, value);
      (IsNumericInput(n) ==> NumberOf(g, n) == NumberOrZero(value)) &&
      (!IsNumericInput(n) ==> TextOf(g, n) == value) &&
      (forall m :: m != n ==> TextOf(g, m) == TextOf(f, m) && NumberOf(g, m) == NumberOf(f, m)) &&
      g.id == f.id && g.category == f.category && g.isActive == f.isActive
  {
  }

  /** Typing "12000" in the price field stores the number 12000; typing
      text that is not a number stores 0. */
  lemma PriceExamples(f: FormData)
    ensures ChangeField(f, PriceInput, "12000").price == 12000.0
    ensures ChangeField(f, PriceInput, "abc").price == 0.0
  {
    ParseShowNat(12000);
    assert ShowNat(12) == "12";
    assert ShowNat(120) == "120";
    assert ShowNat(1200) == "1200";
    assert ShowNat(12000) == "12000";
  }

  /** A character `String.prototype.trim` removes (ASCII whitespace). */
  predicate IsSpace(c: char) {
    c == ' ' || c == '\t' || c == '\n' || c == '\r' || c == '\U{000B}' || c == '\U{000C}'
  }

  /** `s.trim()`: `s` without its leading and trailing whitespace. */
  function Trim(s: string): (r: string)
    ensures |r| <= |s|
    ensures r == [] || (!IsSpace(r[0]) && !IsSpace(r[|r| - 1]))
    decreases |s|
  {
    if s != [] && IsSpace(s[0]) then Trim(s[1..])
    else if s != [] && IsSpace(s[|s| - 1]) then Trim(s[..|s| - 1])
    else s
  }

  /** A text trims to nothing exactly when it is all whitespace. */
  lemma {:induction false} TrimEmptyIffBlank(s: string)
    ensures Trim(s) == [] <==> forall i :: 0 <= i < |s| ==> IsSpace(s[i])
    decreases |s|
  {
    if s != [] && IsSpace(s[0]) {
      TrimEmptyIffBlank(s[1..]);
      assert forall i :: 1 <= i < |s| ==> s[i] == s[1..][i - 1];
    } else if s != [] && IsSpace(s[|s| - 1]) {
      TrimEmptyIffBlank(s[..|s| - 1]);
      assert forall i :: 0 <= i < |s| - 1 ==> s[i] == s[..|s| - 1][i];
    }
  }

  /** The three rules of `validateForm`. */
  predicate NameMissing(f: FormData) { Trim(f.name) == [] }
  predicate SkuMissing(f: FormData) { Trim(f.sku) == [] }
  predicate PriceInvalid(f: FormData) { f.price <= 0.0 }

  /** The form may be submitted. */
  predicate Submittable(f: FormData) {
    !NameMissing(f) && !SkuMissing(f) && !PriceInvalid(f)
  }

  const NameError: string := "Nama produk wajib diisi"
  const SkuError: string := "SKU wajib diisi"
  const PriceError: string := "Harga jual harus lebih dari 0"

  /** The messages `validateForm` computes: one key per failed rule. */
  method ValidateForm(f: FormData) returns (errors: map<string, string>, ok: bool)
    ensures "name" in errors <==> NameMissing(f)
    ensures "sku" in errors <==> SkuMissing(f)
    ensures "price" in errors <==> PriceInvalid(f)
    ensures errors.Keys <= {"name", "sku", "price"}
    ensures "name" in errors ==> errors["name"] == NameError
    ensures "sku" in errors ==> errors["sku"] == SkuError
    ensures "price" in errors ==> errors["price"] == PriceError
    ensures ok <==> Submittable(f)
  {
    errors := map[];
    if Trim(f.name) == [] {
      errors := errors["name" := NameError];
    }
    if Trim(f.sku) == [] {
      errors := errors["sku" := SkuError];
    }
    if f.price <= 0.0 {
      errors := errors["price" := PriceError];
    }
    ok := |errors| == 0;
  }

  /** The empty form fails all three rules: blank name, blank SKU, price 0. */
  lemma DefaultProductInvalid()
    ensures NameMissing(DefaultProduct()) && SkuMissing(DefaultProduct()) && PriceInvalid(DefaultProduct())
  {
  }

  /** A name or SKU of spaces only counts as missing. */
  lemma BlankNameMissing(f: FormData)
    requires forall i :: 0 <= i < |f.name| ==> IsSpace(f.name[i])
    ensures NameMissing(f) && !Submittable(f)
  {
    TrimEmptyIffBlank(f.name);
  }

  /** The form as a component: its data and the messages shown. */
  class Form {
    var formData: FormData
    var errors: map<string, string>

    constructor (product: FormData)
      ensures formData == product && errors == map[]
    {
      formData := product;
      errors := map[];
    }

    /** `handleChange`. */
    method HandleChange(n: InputName, value: string)
      modifies this
      ensures formData == ChangeField(old(formData), n, value)
      ensures errors == old(errors)
    {
      formData := ChangeField(formData, n, value);
    }

    /** `handleSelectChange(value, "category")`. */
    method HandleCategoryChange(value: string)
      modifies this
      ensures formData == old(formData).(category := value)
      ensures errors == old(errors)
    {
      formData := formData.(category := value);
    }

    /** `handleSwitchChange`: only the active flag changes. */
    method HandleSwitchChange(checked: bool)
      modifies this
      ensures formData == old(formData).(isActive := checked)
      ensures errors == old(errors)
    {
      formData := formData.(isActive := checked);
    }

    /** `handleSubmit`: validate, show the messages, and hand the data to
        `onSubmit` only when there are none. */
    method HandleSubmit() returns (submitted: Option<FormData>)
      modifies this
      ensures formData == old(formData)
      ensures submitted.Some? <==> Submittable(formData)
      ensures submitted.Some? ==> submitted.value == formData
      ensures ("name" in errors <==> NameMissing(formData)) && ("sku" in errors <==> SkuMissing(formData)) &&
              ("price" in errors <==> PriceInvalid(formData))
      ensures errors.Keys <= {"name", "sku", "price"}
      ensures ("name" in errors ==> errors["name"] == NameError) && ("sku" in errors ==> errors["sku"] == SkuError) &&
              ("price" in errors ==> errors["price"] == PriceError)
    {
      var newErrors, ok := ValidateForm(formData);
      errors := newErrors;
      submitted := if ok then Some(formData) else None;
    }
  }
}
