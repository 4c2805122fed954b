/** `src/components/edit-utility-cost-dialog.tsx`: an existing cost set's
    form, opened on the set's own values. */
module EditUtilityCostDialog {
  import opened Types
  import opened CostSetForm

  class Dialog {
    var name: string
    var electricityCost: string
    var waterCost: string
    var serviceCosts: seq<Row>

    /** The four state fields as one form. */
    function Form(): FormData
      reads this
    {
      FormData(name, electricityCost, waterCost, serviceCosts)
    }

    /** The set's name, its prices and its service costs, as `render`
        (`toString`) writes the numbers. */
    constructor(costSet: UtilityCostSet, render: real -> string)
      ensures Form() == FormOf(costSet, render)
    {
      name := costSet.name;
      electricityCost := render(costSet.electricityCost);
      waterCost := render(costSet.waterCost);
      serviceCosts := RowsOf(costSet.serviceCosts, render);
    }

    method AddServiceCost()
      modifies this
      ensures Form() == old(Form()).(serviceCosts := Added(old(serviceCosts)))
    {
      serviceCosts := serviceCosts + [EmptyRow];
    }

    method RemoveServiceCost(index: int)
      modifies this
      ensures Form() == old(Form()).(serviceCosts := Removed(old(serviceCosts), index))
    {
      serviceCosts := Removed(serviceCosts, index);
    }

    method UpdateServiceCost(index: int, field: RowField, value: string)
      modifies this
      ensures Form() == old(Form()).(serviceCosts := UpdatedRows(old(serviceCosts), index, field, value))
    {
      serviceCosts := UpdatedRows(serviceCosts, index, field, value);
    }

    /** `handleSave`: the updates handed to `onSave`, with the prices and
        fees read by `parse` (`parseFloat`). */
    method HandleSave(parse: string -> real) returns (updates: CostSetFields)
      ensures updates == Submitted(Form(), parse)
    {
      updates := CostSetFields(name, parse(electricityCost), parse(waterCost), ServiceCostsOf(serviceCosts, parse));
    }
  }
}
