/** The cost-set form shared by the add and edit dialogs
    (`src/components/add-utility-cost-dialog.tsx`,
    `src/components/edit-utility-cost-dialog.tsx`): the texts as typed, the
    editable service-cost rows with the dialogs' `addServiceCost`,
    `removeServiceCost` and `updateServiceCost`, and the cost set a save
    hands on. */
module CostSetForm {
  import opened Wrappers
  import opened Types

  /** `ServiceCostField`: what the two inputs of a row hold. */
  datatype Row = Row(name: string, fee: string)

  /** `keyof ServiceCostField`. */
  datatype RowField = NameField | FeeField

  const EmptyRow := Row("", "")

  function FieldOf(row: Row, field: RowField): string {
    match field
    case NameField => row.name
    case FeeField => row.fee
  }

  /** `{ ...sc, [field]: value }`. */
  function WithField(row: Row, field: RowField, value: string): (r: Row)
    ensures FieldOf(r, field) == value
    ensures forall g :: g != field ==> FieldOf(r, g) == FieldOf(row, g)
  {
    match field
    case NameField => row.(name := value)
    case FeeField => row.(fee := value)
  }

  /** `addServiceCost`: one empty row more at the end. */
  function Added(rows: seq<Row>): (r: seq<Row>)
    ensures |r| == |rows| + 1 && r[..|rows|] == rows && r[|rows|] == EmptyRow
  {
    rows + [EmptyRow]
  }

  /** `removeServiceCost`: `rows.filter((_, i) => i !== index)`, the rows at
      every position other than `index`. */
  function Removed(rows: seq<Row>, index: int): seq<Row> {
    if rows == [] then []
    else Removed(rows[..|rows| - 1], index) + (if |rows| - 1 == index then [] else [rows[|rows| - 1]])
  }

  /** Removing drops exactly the row at `index` and keeps the others in
      order; an index outside the list changes nothing. */
  lemma {:induction false} RemovedIsSlice(rows: seq<Row>, index: int)
    ensures Removed(rows, index) == if 0 <= index < |rows| then rows[..index] + rows[index + 1..] else rows
  {
    if rows != [] {
      var p := rows[..|rows| - 1];
      RemovedIsSlice(p, index);
      if 0 <= index < |rows| - 1 {
        assert p[..index] == rows[..index];
        assert p[index + 1..] + [rows[|rows| - 1]] == rows[index + 1..];
      } else if index == |rows| - 1 {
        assert rows[..index] + rows[index + 1..] == p;
      } else {
        assert p + [rows[|rows| - 1]] == rows;
      }
    }
  }

  /** `updateServiceCost`: `field` of the row at `index` set to `value`. */
  function UpdatedRows(rows: seq<Row>, index: int, field: RowField, value: string): (r: seq<Row>)
    ensures |r| == |rows|
    ensures forall i :: 0 <= i < |rows| && i != index ==> r[i] == rows[i]
    ensures 0 <= index < |rows| ==> r[index] == WithField(rows[index], field, value)
  {
    seq(|rows|, i requires 0 <= i < |rows| => if i == index then WithField(rows[i], field, value) else rows[i])
  }

  /** An update touches only the one input it names: every other row, and
      the row's other input, read as before. */
  lemma UpdateChangesOneInput(rows: seq<Row>, index: int, field: RowField, value: string, i: int, g: RowField)
    requires 0 <= i < |rows|
    ensures FieldOf(UpdatedRows(rows, index, field, value)[i], g)
         == if i == index && g == field then value else FieldOf(rows[i], g)
  {
  }

  /** The saved service costs: one per row, the name as typed and the fee as
      `parse` reads it (`Number` in the add dialog, `parseFloat` in the edit
      dialog). */
  function ServiceCostsOf(rows: seq<Row>, parse: string -> real): (r: seq<ServiceCost>)
    ensures |r| == |rows|
    ensures forall i :: 0 <= i < |rows| ==> r[i] == ServiceCost(rows[i].name, parse(rows[i].fee))
  {
    seq(|rows|, i requires 0 <= i < |rows| => ServiceCost(rows[i].name, parse(rows[i].fee)))
  }

  /** The edit dialog's initial rows: the set's service costs with each fee
      rendered by `render` (`toString`). */
  function RowsOf(costs: seq<ServiceCost>, render: real -> string): (r: seq<Row>)
    ensures |r| == |costs|
    ensures forall i :: 0 <= i < |costs| ==> r[i] == Row(costs[i].name, render(costs[i].fee))
  {
    seq(|costs|, i requires 0 <= i < |costs| => Row(costs[i].name, render(costs[i].fee)))
  }

  /** Rendering the fees and reading them back gives the service costs back
      whenever the reading undoes the rendering. */
  lemma RowsRoundTrip(costs: seq<ServiceCost>, render: real -> string, parse: string -> real)
    requires forall x :: parse(render(x)) == x
    ensures ServiceCostsOf(RowsOf(costs, render), parse) == costs
  {
  }

  /** An added row is saved as a nameless service cost, after the others. */
  lemma AddedSaves(rows: seq<Row>, parse: string -> real)
    ensures ServiceCostsOf(Added(rows), parse) == ServiceCostsOf(rows, parse) + [ServiceCost("", parse(""))]
  {
  }

  /** Removing a row removes its service cost and only that one. */
  lemma RemovedSaves(rows: seq<Row>, index: int, parse: string -> real)
    requires 0 <= index < |rows|
    ensures var s := ServiceCostsOf(rows, parse);
            ServiceCostsOf(Removed(rows, index), parse) == s[..index] + s[index + 1..]
  {
    RemovedIsSlice(rows, index);
  }

  /** The form's texts: the add dialog's `formData`, and the edit dialog's
      four state fields. */
  datatype FormData = FormData(name: string, electricityCost: string, waterCost: string, serviceCosts: seq<Row>)

  /** The add dialog's `initialFormData`. */
  const EmptyForm := FormData("", "", "", [])

  /** What a save hands to `onSave`: a cost set without its id, and without
      the legacy garbage fee. */
  datatype CostSetFields = CostSetFields(name: string, electricityCost: real, waterCost: real, serviceCosts: seq<ServiceCost>)

  /** The save: the name as typed, the prices read by `parse`, one service
      cost per row. */
  function Submitted(f: FormData, parse: string -> real): (s: CostSetFields)
    ensures s.name == f.name
    ensures s.electricityCost == parse(f.electricityCost) && s.waterCost == parse(f.waterCost)
    ensures |s.serviceCosts| == |f.serviceCosts|
    ensures forall i :: 0 <= i < |f.serviceCosts| ==>
              s.serviceCosts[i].name == f.serviceCosts[i].name && s.serviceCosts[i].fee == parse(f.serviceCosts[i].fee)
  {
    CostSetFields(f.name, parse(f.electricityCost), parse(f.waterCost), ServiceCostsOf(f.serviceCosts, parse))
  }

  /** The edit dialog's initial state: the set's name, and its prices and
      fees rendered by `render`. */
  function FormOf(s: UtilityCostSet, render: real -> string): FormData {
    FormData(s.name, render(s.electricityCost), render(s.waterCost), RowsOf(s.serviceCosts, render))
  }

  function FieldsOf(s: UtilityCostSet): CostSetFields {
    CostSetFields(s.name, s.electricityCost, s.waterCost, s.serviceCosts)
  }

  /** Saving the edit dialog without an edit hands back the set's own
      fields whenever reading a number back undoes rendering it. */
  lemma SaveUnedited(s: UtilityCostSet, render: real -> string, parse: string -> real)
    requires forall x :: parse(render(x)) == x
    ensures Submitted(FormOf(s, render), parse) == FieldsOf(s)
  {
    RowsRoundTrip(s.serviceCosts, render, parse);
  }

  /** The set a saved form becomes once the store gives it an id: the
      service costs, and no legacy garbage fee. */
  function AsCostSet(f: CostSetFields, id: int): (s: UtilityCostSet)
    ensures FieldsOf(s) == f && s.id == id && s.garbageCost.None?
  {
    UtilityCostSet(id, f.name, f.electricityCost, f.waterCost, f.serviceCosts, None)
  }
}
