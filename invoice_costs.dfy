/**
 * The additional-costs panel of an invoice: an add form that hands a cost to
 * the page only when it has a description and a positive amount, then resets
 * and closes; and the total of the costs already on the invoice.
 */
module InvoiceAdditionalCosts {
  import opened Wrappers
  import opened Money
  import opened Lists
  import opened CivilDate
  import opened Records

  /** The add form's fields: everything of a cost but its invoice. */
  datatype CostForm = CostForm(description: string, amount: real, costType: CostType, date: Option<Date>)

  /** The form's initial and reset value: no description, amount 0, type `misc`, dated today. */
  function EmptyForm(today: Date): (r: CostForm)
    ensures r.description == "" && r.amount == AmountInput(None) && r.costType == Misc && r.date == Some(today)
    ensures !CanAdd(r, true)
  {
    CostForm("", 0.0, Misc, Some(today))
  }

  /** The guard of `handleAdd`: a description, a positive amount, and an `onAdd` callback to give the cost to; the 0 that unparseable input becomes never passes. */
  function CanAdd(form: CostForm, hasOnAdd: bool): (r: bool)
    ensures r ==> form.amount > AmountInput(None)
  {
    form.description != "" && form.amount > 0.0 && hasOnAdd
  }

  /** The cost `handleAdd` emits: the form's fields with the panel's invoice. */
  function Emitted(form: CostForm, invoiceId: string): (c: AdditionalCostInsert)
    ensures c.invoiceId == invoiceId
    ensures c.description == form.description && c.amount == form.amount
    ensures c.costType == form.costType && c.date == form.date
  {
    AdditionalCostInsert(invoiceId, form.description, form.amount, form.costType, form.date)
  }

  /** `parseFloat(input) || 0`: an unparseable or zero input is 0. */
  function AmountInput(parsed: Option<real>): (r: real)
    ensures parsed.None? ==> r == 0.0
    ensures parsed.Some? ==> r == parsed.value
  {
    Pick(parsed, 0.0)
  }

  /** `costs.reduce((sum, cost) => sum + cost.amount, 0)`: no costs total 0, and costs the guard accepted never total less. */
  function TotalCosts(costs: seq<AdditionalCost>): (r: real)
    ensures |costs| == 0 ==> r == 0.0
    ensures (forall i :: 0 <= i < |costs| ==> costs[i].amount >= 0.0) ==> r >= 0.0
  {
    assert (forall i :: 0 <= i < |costs| ==> costs[i].amount >= 0.0) ==> Sum(costs, CostAmount) >= 0.0 by {
      if forall i :: 0 <= i < |costs| ==> costs[i].amount >= 0.0 {
        SumNonNegative(costs, CostAmount);
      }
    }
    Sum(costs, CostAmount)
  }

  /** A cost stored from an accepted form raises the total by exactly its amount, so the total strictly grows. */
  lemma AddedCostRaisesTotal(costs: seq<AdditionalCost>, id: string, form: CostForm, invoiceId: string, hasOnAdd: bool)
    requires CanAdd(form, hasOnAdd)
    ensures var e := Emitted(form, invoiceId);
      var stored := AdditionalCost(id, e.invoiceId, e.description, e.amount, e.costType, e.date);
      TotalCosts(costs + [stored]) == TotalCosts(costs) + form.amount > TotalCosts(costs)
  {
    var e := Emitted(form, invoiceId);
    var stored := AdditionalCost(id, e.invoiceId, e.description, e.amount, e.costType, e.date);
    SumAppend(costs, [stored], CostAmount);
  }

  /** The panel's state: the entered cost and whether the add form is open. */
  class AdditionalCostsPanel {
    const invoiceId: string
    var formData: CostForm
    var showAddForm: bool

    constructor (invoiceId: string, today: Date)
      ensures this.invoiceId == invoiceId && formData == EmptyForm(today) && !showAddForm
    {
      this.invoiceId := invoiceId;
      formData := EmptyForm(today);
      showAddForm := false;
    }

    /** The "Add Additional Cost" button. */
    method OpenForm()
      modifies this
      ensures showAddForm && formData == old(formData)
    {
      showAddForm := true;
    }

    /** The amount input's `onChange`. */
    method SetAmount(parsed: Option<real>)
      modifies this
      ensures formData == old(formData).(amount := AmountInput(parsed)) && showAddForm == old(showAddForm)
    {
      formData := formData.(amount := AmountInput(parsed));
    }

    /** `handleAdd()`: when the guard holds, emits the cost, resets the form and closes it; otherwise changes nothing. */
    method HandleAdd(hasOnAdd: bool, today: Date) returns (emitted: Option<AdditionalCostInsert>)
      modifies this
      ensures CanAdd(old(formData), hasOnAdd) ==>
        emitted == Some(Emitted(old(formData), invoiceId)) && formData == EmptyForm(today) && !showAddForm
      ensures !CanAdd(old(formData), hasOnAdd) ==>
        emitted.None? && formData == old(formData) && showAddForm == old(showAddForm)
    {
      if formData.description != "" && formData.amount > 0.0 && hasOnAdd {
        emitted := Some(AdditionalCostInsert(invoiceId, formData.description, formData.amount, formData.costType, formData.date));
        formData := EmptyForm(today);
        showAddForm := false;
      } else {
        emitted := None;
      }
    }

    /** The Cancel button: closes the form and resets it. */
    method Cancel(today: Date)
      modifies this
      ensures formData == EmptyForm(today) && !showAddForm
    {
      showAddForm := false;
      formData := EmptyForm(today);
    }
  }

  /** Right after a reset the guard fails, so a second click on Add emits nothing. */
  lemma ResetFormCannotAdd(today: Date, hasOnAdd: bool)
    ensures !CanAdd(EmptyForm(today), hasOnAdd)
  {
  }
}
