/** `src/components/add-utility-cost-dialog.tsx`: the form for a new cost
    set, with its service-cost rows, reset after each submit. */
module AddUtilityCostDialog {
  import opened Types
  import opened CostSetForm
  import PrintingStage

  /** A set created here carries no legacy garbage fee, so the fee it
      prints is its service costs added up, one per row of the form. */
  lemma SubmittedFee(f: FormData, parse: string -> real, id: int)
    ensures var s := AsCostSet(Submitted(f, parse), id);
            && PrintingStage.GarbageFeeAsWritten(s).None?
            && PrintingStage.GarbageFee(s) == PrintingStage.SumFees(ServiceCostsOf(f.serviceCosts, parse))
  {
  }

  /** Submitting the empty form gives a nameless set of zero rows. */
  lemma SubmitEmptyForm(parse: string -> real)
    ensures Submitted(EmptyForm, parse) == CostSetFields("", parse(""), parse(""), [])
  {
  }

  class Dialog {
    var formData: FormData

    constructor()
      ensures formData == EmptyForm
    {
      formData := EmptyForm;
    }

    method AddServiceCost()
      modifies this
      ensures formData == old(formData).(serviceCosts := Added(old(formData).serviceCosts))
    {
      formData := formData.(serviceCosts := formData.serviceCosts + [EmptyRow]);
    }

    method RemoveServiceCost(index: int)
      modifies this
      ensures formData == old(formData).(serviceCosts := Removed(old(formData).serviceCosts, index))
      ensures formData.serviceCosts == if 0 <= index < |old(formData).serviceCosts|
                                      then old(formData).serviceCosts[..index] + old(formData).serviceCosts[index + 1..]
                                      else old(formData).serviceCosts
    {
      RemovedIsSlice(formData.serviceCosts, index);
      formData := formData.(serviceCosts := Removed(formData.serviceCosts, index));
    }

    method UpdateServiceCost(index: int, field: RowField, value: string)
      modifies this
      ensures formData == old(formData).(serviceCosts := UpdatedRows(old(formData).serviceCosts, index, field, value))
    {
      formData := formData.(serviceCosts := UpdatedRows(formData.serviceCosts, index, field, value));
    }

    /** `handleSubmit`: the set handed to `onSave`, then the form emptied. */
    method HandleSubmit(parse: string -> real) returns (newCostSet: CostSetFields)
      modifies this
      ensures newCostSet == Submitted(old(formData), parse)
      ensures formData == EmptyForm
    {
      newCostSet := Submitted(formData, parse);
      formData := EmptyForm;
    }
  }
}
