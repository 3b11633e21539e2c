/**
 * The logistics view: the supplier/location modal, its form and error map,
 * the validator, the save dispatch and the confirmed delete.
 */
module Logistics {
  import opened Wrappers
  import opened JsValues
  import opened Store

  /** Which form the modal shows; `Closed` is the `null` state. */
  datatype ModalState =
    | Closed
    | NewSupplier
    | EditSupplier(item: Doc)
    | NewLocation
    | EditLocation(item: Doc)
  {
    /** `mode.includes('supplier')` */
    predicate IsSupplierMode() { NewSupplier? || EditSupplier? }

    /** `mode.includes('location')` */
    predicate IsLocationMode() { NewLocation? || EditLocation? }

    /** `mode.startsWith('new')` */
    predicate IsNewMode() { NewSupplier? || NewLocation? }
  }

  datatype EntityKind = SupplierEntity | LocationEntity

  /** The item waiting for the user to confirm its deletion. */
  datatype PendingDelete = PendingDelete(kind: EntityKind, id: string)

  const NameRequired: string := "Il nome è obbligatorio."
  const AddressRequired: string := "L'indirizzo è obbligatorio."
  const CapacityNotPositive: string := "La capienza deve essere un numero positivo."

  function Field(r: Record, key: string): Option<Value>
  {
    if key in r then Some(r[key]) else None
  }

  /** The fields the validator calls `trim` on hold text, as `Supplier` and `Location` declare. */
  predicate TextFieldsAreText(r: Record)
  {
    && ("name" in r ==> r["name"].Text?)
    && ("address" in r ==> r["address"].Text?)
  }

  ghost predicate DocsText(c: Collection)
  {
    forall d :: d in c ==> TextFieldsAreText(d.fields)
  }

  predicate ModalText(m: ModalState)
  {
    (m.EditSupplier? || m.EditLocation?) ==> TextFieldsAreText(m.item.fields)
  }

  /** `!form[key]?.trim()`: the field is absent or trims to the empty string. */
  predicate TextMissing(form: Record, key: string)
    requires key in form ==> form[key].Text?
  {
    key !in form || Trim(form[key].text) == ""
  }

  /** `form.capacity === undefined || Number(form.capacity) <= 0` */
  predicate CapacityRejected(form: Record)
  {
    "capacity" !in form || AtMostZero(ToNumber(Field(form, "capacity")))
  }

  /**
   * The error map `validate` records for a mode and a form. Supplier modes
   * check only the name; location modes check name, address and capacity.
   */
  function ValidationErrors(m: ModalState, form: Record): (errs: map<string, string>)
    requires TextFieldsAreText(form)
    ensures "name" in errs <==> !m.Closed? && ("name" !in form || AllWhitespace(form["name"].text))
    ensures "address" in errs <==> m.IsLocationMode() && ("address" !in form || AllWhitespace(form["address"].text))
    ensures "capacity" in errs <==> m.IsLocationMode() && ("capacity" !in form || AtMostZero(ToNumber(Some(form["capacity"]))))
    ensures errs.Keys <= {"name", "address", "capacity"}
    ensures "name" in errs ==> errs["name"] == NameRequired
    ensures "address" in errs ==> errs["address"] == AddressRequired
    ensures "capacity" in errs ==> errs["capacity"] == CapacityNotPositive
  {
    TextMissingMeansBlank(form, "name");
    TextMissingMeansBlank(form, "address");
    var e1 := SupplierChecks(m, form);
    var e2 := if m.IsLocationMode() && TextMissing(form, "name") then e1["name" := NameRequired] else e1;
    var e3 := if m.IsLocationMode() && TextMissing(form, "address") then e2["address" := AddressRequired] else e2;
    if m.IsLocationMode() && CapacityRejected(form) then e3["capacity" := CapacityNotPositive] else e3
  }

  /** The errors of the supplier block alone. */
  function SupplierChecks(m: ModalState, form: Record): map<string, string>
    requires TextFieldsAreText(form)
  {
    if m.IsSupplierMode() && TextMissing(form, "name") then map["name" := NameRequired] else map[]
  }

  /** `ValidationErrors` as the supplier block followed by the three location checks. */
  lemma ValidationErrorsSteps(m: ModalState, form: Record)
    requires TextFieldsAreText(form)
    ensures var e1 := SupplierChecks(m, form);
      var e2 := if m.IsLocationMode() && TextMissing(form, "name") then e1["name" := NameRequired] else e1;
      var e3 := if m.IsLocationMode() && TextMissing(form, "address") then e2["address" := AddressRequired] else e2;
      ValidationErrors(m, form) == if m.IsLocationMode() && CapacityRejected(form) then e3["capacity" := CapacityNotPositive] else e3
  {
  }

  /** Trimming to nothing is the same as holding only whitespace. */
  lemma TextMissingMeansBlank(form: Record, key: string)
    requires key in form ==> form[key].Text?
    ensures TextMissing(form, key) <==> key !in form || AllWhitespace(form[key].text)
  {
    if key in form {
      TrimSpec(form[key].text);
    }
  }

  /** `{ ...form, capacity: Number(form.capacity) }` */
  function WithNumericCapacity(form: Record): (r: Record)
    ensures r.Keys == form.Keys + {"capacity"}
    ensures r["capacity"] == Num(ToNumber(Field(form, "capacity")))
    ensures forall k :: k in form && k != "capacity" ==> r[k] == form[k]
  {
    form["capacity" := Num(ToNumber(Field(form, "capacity")))]
  }

  /**
   * The supplier and location collections after the one gateway call
   * `handleSave` issues for a mode once validation has passed.
   */
  function AfterSave(suppliers: Collection, locations: Collection, m: ModalState, form: Record, newId: string)
    : (r: (Collection, Collection))
    ensures m.Closed? ==> r == (suppliers, locations)
    ensures !m.IsSupplierMode() ==> r.0 == suppliers
    ensures !m.IsLocationMode() ==> r.1 == locations
    ensures m.NewSupplier? ==> |r.0| == |suppliers| + 1 && r.0[..|suppliers|] == suppliers && r.0[|suppliers|] == Doc(newId, form)
    ensures m.NewLocation? ==> |r.1| == |locations| + 1 && r.1[..|locations|] == locations && r.1[|locations|].id == newId
    ensures m.EditSupplier? ==> |r.0| == |suppliers| && forall i :: 0 <= i < |suppliers| && suppliers[i].id != m.item.id ==> r.0[i] == suppliers[i]
    ensures m.EditLocation? ==> |r.1| == |locations| && forall i :: 0 <= i < |locations| && locations[i].id != m.item.id ==> r.1[i] == locations[i]
  {
    match m
    case Closed => (suppliers, locations)
    case NewSupplier => (AddDoc(suppliers, newId, form), locations)
    case EditSupplier(item) => (UpdateDocs(suppliers, item.id, form), locations)
    case NewLocation => (suppliers, AddDoc(locations, newId, WithNumericCapacity(form)))
    case EditLocation(item) => (suppliers, UpdateDocs(locations, item.id, WithNumericCapacity(form)))
  }

  /** What `setFormData(modalState.item)` puts in the form: the item's fields and its id. */
  function ItemRecord(d: Doc): (r: Record)
    ensures r.Keys == d.fields.Keys + {"id"}
    ensures r["id"] == Text(d.id)
    ensures forall k :: k in d.fields && k != "id" ==> r[k] == d.fields[k]
    ensures TextFieldsAreText(d.fields) ==> TextFieldsAreText(r)
  {
    d.fields["id" := Text(d.id)]
  }

  /** The form the modal-open effect installs: the item for an edit mode, empty otherwise. */
  function Prefill(m: ModalState): (r: Record)
    ensures m.IsNewMode() || m.Closed? ==> r == map[]
    ensures m.EditSupplier? || m.EditLocation? ==>
      && r.Keys == m.item.fields.Keys + {"id"}
      && r["id"] == Text(m.item.id)
      && forall k :: k in m.item.fields && k != "id" ==> r[k] == m.item.fields[k]
  {
    if m.EditSupplier? || m.EditLocation? then ItemRecord(m.item) else map[]
  }

  /** The modal title `renderModal` shows, or nothing when the modal is closed. */
  function ModalTitle(m: ModalState): (t: Option<string>)
    ensures t.None? <==> m.Closed?
    ensures t.Some? ==> (m.IsNewMode() <==> |t.value| >= 5 && t.value[..5] == "Nuovo")
    ensures t.Some? ==> (m.IsSupplierMode() <==> |t.value| >= 9 && t.value[|t.value| - 9..] == "Fornitore")
  {
    if m.Closed? then None
    else
      var isSupplier := m.IsSupplierMode();
      var title :=
        if m.IsNewMode() then (if isSupplier then "Nuovo Fornitore" else "Nuovo Luogo")
        else (if isSupplier then "Modifica Fornitore" else "Modifica Luogo");
      assert "Modifica Fornitore"[..5] != "Nuovo" by { assert "Modifica Fornitore"[0] == 'M'; }
      assert "Modifica Luogo"[..5] != "Nuovo" by { assert "Modifica Luogo"[0] == 'M'; }
      assert "Nuovo Luogo"[2..] != "Fornitore" by { assert "Nuovo Luogo"[2] == 'o'; }
      assert "Modifica Luogo"[5..] != "Fornitore" by { assert "Modifica Luogo"[5] == 'i'; }
      Some(title)
  }

  // ---------------------------------------------------------------------
  // Properties of validation and saving
  // ---------------------------------------------------------------------

  /** In supplier modes the address and capacity fields never influence validation. */
  lemma SupplierChecksOnlyName(m: ModalState, form: Record, other: Record)
    requires m.IsSupplierMode()
    requires TextFieldsAreText(form) && TextFieldsAreText(other)
    requires Field(form, "name") == Field(other, "name")
    ensures ValidationErrors(m, form) == ValidationErrors(m, other)
  {
    var a, b := ValidationErrors(m, form), ValidationErrors(m, other);
    assert a.Keys == b.Keys;
  }

  /** A capacity typed as the decimal text of a positive number passes; zero does not. */
  lemma TypedCapacityNat(m: ModalState, form: Record, n: nat)
    requires m.IsLocationMode() && TextFieldsAreText(form)
    requires Field(form, "capacity") == Some(Text(NatText(n)))
    ensures "capacity" in ValidationErrors(m, form) <==> n == 0
  {
    NumberOfNatText(n);
    assert form["capacity"] == Text(NatText(n));
    assert ToNumber(Some(form["capacity"])) == Finite(n as real);
  }

  /** A capacity typed as a negative number is rejected. */
  lemma TypedCapacityNegative(m: ModalState, form: Record, n: nat)
    requires m.IsLocationMode() && TextFieldsAreText(form)
    requires Field(form, "capacity") == Some(Text("-" + NatText(n)))
    ensures "capacity" in ValidationErrors(m, form)
  {
    NumberOfNegatedNatText(n);
  }

  /** A capacity that reads as NaN passes, since `NaN <= 0` is false. */
  lemma NonNumericCapacityPasses(m: ModalState, form: Record)
    requires m.IsLocationMode() && TextFieldsAreText(form)
    requires "capacity" in form && ToNumber(Some(form["capacity"])).NaN?
    ensures "capacity" !in ValidationErrors(m, form)
  {
  }

  /**
   * A capacity typed as text that, once trimmed, starts with a letter
   * other than the `I` of "Infinity" reads as NaN and therefore passes.
   */
  lemma LetterCapacityPasses(m: ModalState, form: Record, s: string)
    requires m.IsLocationMode() && TextFieldsAreText(form)
    requires Field(form, "capacity") == Some(Text(s))
    requires Trim(s) != [] && IsLatinLetter(Trim(s)[0]) && Trim(s)[0] != 'I'
    ensures "capacity" !in ValidationErrors(m, form)
  {
    LeadingLetterIsNaN(s);
    assert form["capacity"] == Text(s);
    NonNumericCapacityPasses(m, form);
  }

  /** A save touches only the collection of its mode, and adds or keeps ids as the mode says. */
  lemma SaveTouchesOneCollection(suppliers: Collection, locations: Collection, m: ModalState, form: Record, newId: string)
    ensures var (s, l) := AfterSave(suppliers, locations, m, form, newId);
      && (!m.IsSupplierMode() ==> s == suppliers)
      && (!m.IsLocationMode() ==> l == locations)
      && (m.NewSupplier? ==> Ids(s) == Ids(suppliers) + {newId} && |s| == |suppliers| + 1)
      && (m.NewLocation? ==> Ids(l) == Ids(locations) + {newId} && |l| == |locations| + 1)
      && (m.EditSupplier? ==> Ids(s) == Ids(suppliers) && |s| == |suppliers|)
      && (m.EditLocation? ==> Ids(l) == Ids(locations) && |l| == |locations|)
  {
    match m
    case EditSupplier(item) => UpdateKeepsIds(suppliers, item.id, form);
    case EditLocation(item) => UpdateKeepsIds(locations, item.id, WithNumericCapacity(form));
    case _ =>
  }

  /**
   * The fields of a saved location hold a numeric capacity that is not
   * `<= 0`, and every other form field verbatim.
   */
  predicate SavedAsValidated(fields: Record, form: Record)
  {
    && "capacity" in fields && fields["capacity"].Num?
    && !AtMostZero(fields["capacity"].num)
    && (forall k :: k in form && k != "capacity" ==> k in fields && fields[k] == form[k])
  }

  /**
   * After a location save that passed validation, the document written
   * (the appended one for a new location, every one carrying the edited id
   * for an edit) holds a numeric capacity that is not `<= 0`, and every
   * other form field verbatim.
   */
  lemma SavedLocationCapacity(suppliers: Collection, locations: Collection, m: ModalState, form: Record, newId: string)
    requires m.IsLocationMode() && TextFieldsAreText(form)
    requires ValidationErrors(m, form) == map[]
    ensures var l := AfterSave(suppliers, locations, m, form, newId).1;
      && (m.NewLocation? ==> |l| == |locations| + 1 && SavedAsValidated(l[|locations|].fields, form))
      && (m.EditLocation? ==> |l| == |locations| && forall i :: 0 <= i < |locations| && locations[i].id == m.item.id ==>
            SavedAsValidated(l[i].fields, form))
  {
    assert "capacity" !in ValidationErrors(m, form);
    var saved := WithNumericCapacity(form);
    assert !AtMostZero(saved["capacity"].num);
    var l := AfterSave(suppliers, locations, m, form, newId).1;
    if m.EditLocation? {
      forall i | 0 <= i < |locations| && locations[i].id == m.item.id
        ensures SavedAsValidated(l[i].fields, form)
      {
        MergedFieldsWin(locations[i].fields, saved);
      }
    }
  }

  /** A merge gives every merged field its new value. */
  lemma MergedFieldsWin(r: Record, u: Record)
    ensures u.Keys <= (r + u).Keys && forall k :: k in u ==> (r + u)[k] == u[k]
  {
  }

  /** Merging textual records gives a textual record. */
  lemma MergeKeepsText(r: Record, u: Record)
    requires TextFieldsAreText(r) && TextFieldsAreText(u)
    ensures TextFieldsAreText(r + u)
  {
  }

  /** An update with a textual record keeps every document textual. */
  lemma UpdateKeepsText(c: Collection, id: string, u: Record)
    requires DocsText(c) && TextFieldsAreText(u)
    ensures DocsText(UpdateDocs(c, id, u))
  {
    var r := UpdateDocs(c, id, u);
    forall d | d in r ensures TextFieldsAreText(d.fields) {
      var i :| 0 <= i < |r| && r[i] == d;
      assert c[i] in c;
      if c[i].id == id {
        MergeKeepsText(c[i].fields, u);
      }
    }
  }

  /** Adding a textual record keeps every document textual. */
  lemma AddKeepsText(c: Collection, id: string, u: Record)
    requires DocsText(c) && TextFieldsAreText(u)
    ensures DocsText(AddDoc(c, id, u))
  {
    var r := AddDoc(c, id, u);
    forall d | d in r ensures TextFieldsAreText(d.fields) {
      var i :| 0 <= i < |r| && r[i] == d;
      if i < |c| {
        assert r[i] == c[i] && c[i] in c;
      }
    }
  }

  /** A save keeps ids unique and name and address textual in both collections. */
  lemma SaveKeepsStore(suppliers: Collection, locations: Collection, m: ModalState, form: Record, newId: string)
    requires UniqueIds(suppliers) && UniqueIds(locations) && DocsText(suppliers) && DocsText(locations)
    requires TextFieldsAreText(form) && newId !in Ids(suppliers) && newId !in Ids(locations)
    ensures var (s, l) := AfterSave(suppliers, locations, m, form, newId);
      UniqueIds(s) && UniqueIds(l) && DocsText(s) && DocsText(l)
  {
    var saved := WithNumericCapacity(form);
    assert TextFieldsAreText(saved);
    match m
    case Closed =>
    case NewSupplier =>
      AddKeepsText(suppliers, newId, form);
    case EditSupplier(item) =>
      UpdateKeepsIds(suppliers, item.id, form);
      UpdateKeepsText(suppliers, item.id, form);
    case NewLocation =>
      AddKeepsText(locations, newId, saved);
    case EditLocation(item) =>
      UpdateKeepsIds(locations, item.id, saved);
      UpdateKeepsText(locations, item.id, saved);
  }

  /** Merging a record with itself and an id gives the record with that id. */
  lemma MergeOwnFields(f: Record, id: string)
    ensures f + ItemRecord(Doc(id, f)) == f + map["id" := Text(id)]
  {
    var a, b := f + ItemRecord(Doc(id, f)), f + map["id" := Text(id)];
    assert a.Keys == b.Keys;
  }

  /** Opening a stored supplier for editing and saving it untouched only echoes its id into its fields. */
  lemma UntouchedSupplierEdit(suppliers: Collection, d: Doc)
    requires UniqueIds(suppliers) && d in suppliers
    ensures UpdateDocs(suppliers, d.id, Prefill(EditSupplier(d))) == UpdateDocs(suppliers, d.id, map["id" := Text(d.id)])
  {
    forall i | 0 <= i < |suppliers| && suppliers[i].id == d.id
      ensures suppliers[i].fields + Prefill(EditSupplier(d)) == suppliers[i].fields + map["id" := Text(d.id)]
    {
      OnlyDocWithId(suppliers, d, i);
      MergeOwnFields(d.fields, d.id);
    }
    UpdatesAgree(suppliers, d.id, Prefill(EditSupplier(d)), map["id" := Text(d.id)]);
  }

  /** A record whose capacity is already a number is unchanged by the capacity conversion. */
  lemma NumericCapacityKept(r: Record)
    requires "capacity" in r && r["capacity"].Num?
    ensures WithNumericCapacity(r) == r
  {
    assert ToNumber(Field(r, "capacity")) == r["capacity"].num;
    assert r["capacity" := r["capacity"]] == r;
  }

  /** The same for a stored location whose capacity is already a number. */
  lemma UntouchedLocationEdit(locations: Collection, d: Doc)
    requires UniqueIds(locations) && d in locations
    requires "capacity" in d.fields && d.fields["capacity"].Num?
    ensures UpdateDocs(locations, d.id, WithNumericCapacity(Prefill(EditLocation(d))))
         == UpdateDocs(locations, d.id, map["id" := Text(d.id)])
  {
    var item := ItemRecord(d);
    assert Prefill(EditLocation(d)) == item;
    NumericCapacityKept(item);
    forall i | 0 <= i < |locations| && locations[i].id == d.id
      ensures locations[i].fields + item == locations[i].fields + map["id" := Text(d.id)]
    {
      OnlyDocWithId(locations, d, i);
      MergeOwnFields(d.fields, d.id);
    }
    UpdatesAgree(locations, d.id, item, map["id" := Text(d.id)]);
  }

  // ---------------------------------------------------------------------
  // The view's state and its handlers
  // ---------------------------------------------------------------------

  /**
   * The component state of the logistics view together with the two
   * collections the gateway keeps for it.
   */
  class LogisticsView {
    var suppliers: Collection
    var locations: Collection
    var modalState: ModalState
    var deletingItem: Option<PendingDelete>
    var formData: Record
    var errors: map<string, string>

    ghost predicate Valid()
      reads this
    {
      && UniqueIds(suppliers) && UniqueIds(locations)
      && DocsText(suppliers) && DocsText(locations)
      && ModalText(modalState) && TextFieldsAreText(formData)
    }

    constructor (suppliers: Collection, locations: Collection)
      requires UniqueIds(suppliers) && UniqueIds(locations)
      requires DocsText(suppliers) && DocsText(locations)
      ensures Valid()
      ensures this.suppliers == suppliers && this.locations == locations
      ensures modalState == Closed && deletingItem == None
      ensures formData == map[] && errors == map[]
    {
      this.suppliers := suppliers;
      this.locations := locations;
      modalState := Closed;
      deletingItem := None;
      formData := map[];
      errors := map[];
    }

    /**
     * `setModalState(next)` and the effect that follows it: an edit mode
     * prefills the form with its item, any other mode empties it, and the
     * errors are cleared. React skips the effect when the state stays `null`.
     */
    method SetModalState(next: ModalState)
      requires Valid() && ModalText(next)
      modifies this
      ensures Valid()
      ensures modalState == next
      ensures suppliers == old(suppliers) && locations == old(locations)
      ensures deletingItem == old(deletingItem)
      ensures old(modalState).Closed? && next.Closed? ==> formData == old(formData) && errors == old(errors)
      ensures !(old(modalState).Closed? && next.Closed?) ==> formData == Prefill(next) && errors == map[]
    {
      var changed := !(modalState.Closed? && next.Closed?);
      modalState := next;
      if changed {
        if next.EditSupplier? || next.EditLocation? {
          formData := ItemRecord(next.item);
        } else {
          formData := map[];
        }
        errors := map[];
      }
    }

    /** An input's `onChange`: `setFormData({ ...formData, [key]: text })`. */
    method EditField(key: string, text: string)
      requires Valid()
      modifies this`formData
      ensures Valid()
      ensures formData == old(formData)[key := Text(text)]
    {
      formData := formData[key := Text(text)];
    }

    /** `validate`: records the errors of the current form and reports whether there are none. */
    method Validate() returns (ok: bool)
      requires Valid()
      modifies this`errors
      ensures Valid()
      ensures errors == ValidationErrors(modalState, formData)
      ensures ok <==> errors == map[]
    {
      var m, form := modalState, formData;
      var nameMissing := TextMissing(form, "name");
      var addressMissing := TextMissing(form, "address");
      var capacityRejected := CapacityRejected(form);
      var newErrors: map<string, string> := map[];
      if m.IsSupplierMode() {
        if nameMissing {
          newErrors := newErrors["name" := NameRequired];
        }
      }
      assert newErrors == SupplierChecks(m, form);
      if m.IsLocationMode() {
        if nameMissing {
          newErrors := newErrors["name" := NameRequired];
        }
        if addressMissing {
          newErrors := newErrors["address" := AddressRequired];
        }
        if capacityRejected {
          newErrors := newErrors["capacity" := CapacityNotPositive];
        }
      }
      ValidationErrorsSteps(m, form);
      errors := newErrors;
      ok := |newErrors| == 0;
    }

    /**
     * `handleSave`: when validation fails nothing but the error map changes;
     * when it passes, exactly the gateway call of the mode is applied and the
     * modal is closed. `newId` is the id the gateway gives an added document.
     */
    method HandleSave(newId: string)
      requires Valid()
      requires newId !in Ids(suppliers) && newId !in Ids(locations)
      modifies this
      ensures Valid()
      ensures deletingItem == old(deletingItem)
      ensures ValidationErrors(old(modalState), old(formData)) != map[] ==>
        && suppliers == old(suppliers) && locations == old(locations)
        && modalState == old(modalState) && formData == old(formData)
        && errors == ValidationErrors(old(modalState), old(formData))
      ensures ValidationErrors(old(modalState), old(formData)) == map[] ==>
        && (suppliers, locations) == AfterSave(old(suppliers), old(locations), old(modalState), old(formData), newId)
        && modalState == Closed && errors == map[]
        && formData == (if old(modalState).Closed? then old(formData) else map[])
    {
      var ok := Validate();
      if ok {
        ApplySave(newId);
        SetModalState(Closed);
      }
    }

    /** The one gateway call of the mode, as `handleSave` issues it once validation has passed. */
    method ApplySave(newId: string)
      requires Valid()
      requires newId !in Ids(suppliers) && newId !in Ids(locations)
      modifies this`suppliers, this`locations
      ensures Valid()
      ensures (suppliers, locations) == AfterSave(old(suppliers), old(locations), modalState, formData, newId)
    {
      SaveKeepsStore(suppliers, locations, modalState, formData, newId);
      match modalState {
        case NewSupplier =>
          suppliers := AddDoc(suppliers, newId, formData);
        case EditSupplier(item) =>
          suppliers := UpdateDocs(suppliers, item.id, formData);
        case NewLocation =>
          locations := AddDoc(locations, newId, WithNumericCapacity(formData));
        case EditLocation(item) =>
          locations := UpdateDocs(locations, item.id, WithNumericCapacity(formData));
        case Closed =>
      }
    }

    /** The trash button: `setDeletingItem({ type, id })`. */
    method RequestDelete(kind: EntityKind, id: string)
      requires Valid()
      modifies this`deletingItem
      ensures Valid()
      ensures deletingItem == Some(PendingDelete(kind, id))
    {
      deletingItem := Some(PendingDelete(kind, id));
    }

    /** Closing the confirmation: `setDeletingItem(null)`. */
    method CancelDelete()
      requires Valid()
      modifies this`deletingItem
      ensures Valid()
      ensures deletingItem == None
    {
      deletingItem := None;
    }

    /**
     * `handleConfirmDelete`: removes the pending id from the collection of
     * its kind and clears the pending item; with nothing pending, nothing changes.
     */
    method HandleConfirmDelete()
      requires Valid()
      modifies this
      ensures Valid()
      ensures modalState == old(modalState) && formData == old(formData) && errors == old(errors)
      ensures deletingItem == None
      ensures old(deletingItem).None? ==> suppliers == old(suppliers) && locations == old(locations)
      ensures old(deletingItem).Some? && old(deletingItem).value.kind == SupplierEntity ==>
        suppliers == RemoveDocs(old(suppliers), old(deletingItem).value.id) && locations == old(locations)
      ensures old(deletingItem).Some? && old(deletingItem).value.kind == LocationEntity ==>
        locations == RemoveDocs(old(locations), old(deletingItem).value.id) && suppliers == old(suppliers)
    {
      if deletingItem.Some? {
        var pending := deletingItem.value;
        if pending.kind == SupplierEntity {
          RemoveKeepsUnique(suppliers, pending.id);
          suppliers := RemoveDocs(suppliers, pending.id);
        } else {
          RemoveKeepsUnique(locations, pending.id);
          locations := RemoveDocs(locations, pending.id);
        }
        deletingItem := None;
      }
    }
  }
}
