# unit-ledger, modelled in Dafny

unit-ledger is a small web application for a landlord who lets rooms in
several blocks. It keeps a table of rooms with their last electricity and
water meter readings. Its monthly cycle has three steps:

- **Preparation**: choose the rooms to bill, grouped by block or by the date of the last reading.
- **Calculation**: enter the new readings, which are checked against the old ones.
- **Printing**: print the invoices, the total sheet and the receiving sheet as PDF files.

Unit prices come from cost sets with named service fees. Settings and
rooms can be exported to JSON and imported again.

This project models the application's core in Dafny:

- **Stores**: the rooms, calculation rooms, session, utility costs and invoice settings.
- **Data handling**: the migration of legacy cost sets, and export/import with its validation.
- **PDF generation**: the billing arithmetic, the page layouts and the money formatting.
- **Dialogs and stages**: the room dialog and its room-name parser, the remarks dialog, the three cost-set dialogs, the room table, the room-selection dialog, the three stages and the application's mode switching.

**How the source maps to Dafny**

- Stores and components that update state become Dafny classes. Their
  methods are specified by functions on the old state.
- Pure computations become functions, and lemmas prove what the
  application relies on. Examples:
  - export then import gives the data back;
  - merging calculated rooms keeps the last room of each name;
  - groups partition the rooms and are sorted;
  - invoice cards on a page never overlap;
  - a cleaned text saves the same remarks again.

**Shared modules**

- `Wrappers`: `Option` and `Result`.
- `JsonValue`: parsed JSON documents with the language's truthiness.
- `Text`: the string functions the source calls, with these conventions:
  - `Compare` is code-point order, standing in for `localeCompare`;
  - trimming removes the white space JavaScript's `trim` removes, while upper- and lower-casing map ASCII letters only;
  - splitting and joining are at one character.
- `Seqs`: filters, grouping by key and insertion sort.
- `Grouping`: block groups and selection sets, as used by several components.

## Model

| member | source | states |
|---|---|---|
| Types.ApplyPatch | src/store/rooms.ts:38-44 | the object spread `{ ...room, ...updates }`: each of the nine fields is the patch's value when the patch carries one and the room's value when it does not |
| Types.ApplyPatchIdentities | src/store/rooms.ts:38-44 | an empty patch leaves a room as it is; a patch carrying every field of another room gives exactly that room |
| JsonValue.Get | src/utils/export.ts:96-108 | a property read finds a value exactly when the document is an object that has the key |
| RoomsStore.FindByName | src/store/rooms.ts:23 | `find` by name: found iff some room has the name, and then it is the first such room |
| RoomsStore.UpdatedRooms | src/store/rooms.ts:21-26 | the length and the names are kept; each room is kept when no updated room has its name, or else replaced by the first updated room with that name |
| RoomsStore.UpdateWithUnknownNames | src/store/rooms.ts:21-26 | updated rooms whose names are all unknown change nothing; unknown names are never added |
| RoomsStore.Remaining | src/store/rooms.ts:28-31 | the remaining rooms are exactly the rooms whose names are not excluded |
| RoomsStore.RemainingInOrder | src/store/rooms.ts:28-31 | the filter keeps the order and the multiplicity of the rooms: it works room by room over a concatenation, keeping a room exactly when its name is not excluded |
| RoomsStore.EditedRooms | src/store/rooms.ts:38-44 | every room with the name gets the patch, every other room is unchanged, and the length is kept |
| RoomsStore.EditIdempotent | src/store/rooms.ts:38-44 | an edit that keeps the name changes nothing more when applied a second time |
| RoomsStore.DeletedRooms | src/store/rooms.ts:46-48 | the rooms left are exactly those whose name differs |
| RoomsStore.DeletedInOrder | src/store/rooms.ts:46-48 | deleting keeps the order and the multiplicity of the other rooms: it works room by room over a concatenation, dropping a room exactly when it has the name |
| RoomsStore.DeleteAfterAdd | src/store/rooms.ts:34-48 | adding a room and then deleting its name is the same as deleting the name alone |
| RoomsStore.DeleteIsRemainingWithout | src/store/rooms.ts:28-48 | deleting a name is the same as keeping the rooms that remain when that one name is excluded |
| RoomsStore.Store.constructor | src/store/rooms.ts:16-17 | the store starts with no rooms |
| RoomsStore.Store.SetRooms | src/store/rooms.ts:19 | the rooms become the given list |
| RoomsStore.Store.UpdateRooms | src/store/rooms.ts:21-26 | the new rooms are the updated rooms of the old ones |
| RoomsStore.Store.GetRemainingRooms | src/store/rooms.ts:28-31 | returns the rooms that remain, without changing the store |
| RoomsStore.Store.AddRoom | src/store/rooms.ts:34-36 | the room is appended at the end |
| RoomsStore.Store.EditRoom | src/store/rooms.ts:38-44 | the new rooms are the edited rooms of the old ones |
| RoomsStore.Store.DeleteRoom | src/store/rooms.ts:46-48 | the new rooms are the old ones without that name |
| CalculationRoomsStore.Convert | src/store/calculation-rooms.ts:13-18 | a calculation room keeps the room, starts selected, and its new readings start at the current ones |
| CalculationRoomsStore.ApplyCalculationPatch | src/store/calculation-rooms.ts:31-37 | the spread of a patch on both the room fields and the calculation fields |
| CalculationRoomsStore.ConvertAll | src/store/calculation-rooms.ts:22-24 | each room is converted in place, and the order is kept |
| CalculationRoomsStore.ConvertAllAppend | src/store/calculation-rooms.ts:22-27 | setting a list and then adding a room gives the same result as setting the longer list |
| CalculationRoomsStore.Removed | src/store/calculation-rooms.ts:28-30 | the entries left are exactly those with another name |
| CalculationRoomsStore.RemovedInOrder | src/store/calculation-rooms.ts:28-30 | removing keeps the order and the multiplicity of the other entries: it works entry by entry over a concatenation, dropping an entry exactly when it has the name |
| CalculationRoomsStore.Updated | src/store/calculation-rooms.ts:31-37 | the entries with the name get the patch, the others are unchanged, and the length is kept |
| CalculationRoomsStore.RemoveAfterAdd | src/store/calculation-rooms.ts:25-30 | adding a room and then removing its name is the same as removing the name alone |
| CalculationRoomsStore.Store.constructor | src/store/calculation-rooms.ts:20-21 | no calculation rooms at the start |
| CalculationRoomsStore.Store.SetCalculationRooms | src/store/calculation-rooms.ts:22-24 | the entries are the converted rooms |
| CalculationRoomsStore.Store.AddCalculationRoom | src/store/calculation-rooms.ts:25-27 | the converted room is appended |
| CalculationRoomsStore.Store.RemoveCalculationRoom | src/store/calculation-rooms.ts:28-30 | the named entries are dropped |
| CalculationRoomsStore.Store.UpdateCalculationRoom | src/store/calculation-rooms.ts:31-37 | the named entries are patched |
| CalculationRoomsStore.Store.ClearCalculation | src/store/calculation-rooms.ts:38 | no entries are left |
| SessionStore.Names | src/store/session.ts:31-33 | the names of the rooms, in order |
| SessionStore.MergedNames | src/store/session.ts:31-41 | the merged rooms carry each name once, in the order of the name's first appearance among the current rooms followed by the new ones |
| SessionStore.Upsert | src/store/session.ts:36-38 | the definition: an entry with the room's name is replaced where it stands, otherwise the room is appended; `SessionStore.UpsertCases` and `SessionStore.MapSetIsUpsert` state its meaning |
| SessionStore.UpsertCases | src/store/session.ts:36-38 | setting a name already in the map replaces that entry in place; a new name is appended |
| SessionStore.Merged | src/store/session.ts:31-41 | the definition: the current then the new rooms set in turn into a map keyed by name |
| SessionStore.MergedLastWins | src/store/session.ts:31-41 | every merged room is the last room with its name (a new room wins over the current one) |
| SessionStore.MergedDistinct | src/store/session.ts:31-41 | no two merged rooms share a name |
| SessionStore.Values | src/store/session.ts:41 | `Array.from(map.values())` has one value per key, in insertion order |
| SessionStore.MapSet | src/store/session.ts:36-38 | `map.set` keeps the map well formed, and its values become the upsert of the old values |
| SessionStore.MapSetIsUpsert | src/store/session.ts:36-38 | setting a key in the insertion-ordered map is an upsert on its list of values |
| SessionStore.MapSetExisting | src/store/session.ts:36-38 | setting a key that is present keeps the key order and replaces the value |
| SessionStore.MapSetNew | src/store/session.ts:36-38 | setting a new key appends it |
| SessionStore.Store.constructor | src/store/session.ts:17-25 | the rooms start as the stored list, or as nothing when the storage has none or cannot be read |
| SessionStore.Store.AddCalculatedRooms | src/store/session.ts:27-49 | the new state is the merge of the old rooms with the new ones, computed through the map |
| SessionStore.Store.ClearCalculatedRooms | src/store/session.ts:51-58 | no rooms are left |
| SessionStore.Store.HasCalculatedRooms | src/store/session.ts:60-62 | true exactly when there are rooms |
| SessionStore.Store.GetCalculatedRooms | src/store/session.ts:64-66 | the current rooms |
| UtilityCostsStore.Rank | src/store/utility-costs.ts:11-15 | each type has a position among the defaults, and the default at that position has that type |
| UtilityCostsStore.WithDefaults | src/store/utility-costs.ts:20-29 | the definition: each default cost appended in turn when no cost of its type is present |
| UtilityCostsStore.WithDefaultsSteps | src/store/utility-costs.ts:22-28 | `setCosts` runs one step per default, in the order electric, water, garbage |
| UtilityCostsStore.AddMissingHas | src/store/utility-costs.ts:24-26 | after one step the list has the type of that default |
| UtilityCostsStore.SetCostsProperties | src/store/utility-costs.ts:20-29 | the given costs are a prefix of the result; at most three defaults are appended, each with price 0, each of a type the input lacked, and in default order; every type is then present |
| UtilityCostsStore.SetCostsShape | src/store/utility-costs.ts:20-29 | the shape part of the above: the prefix, at most three more entries, and these are price-0 defaults of missing types in rank order |
| UtilityCostsStore.SetCostsCoverTypes | src/store/utility-costs.ts:20-29 | after `setCosts` every type is present |
| UtilityCostsStore.SetCostsComplete | src/store/utility-costs.ts:20-29 | costs that already have every type are stored unchanged |
| UtilityCostsStore.SetCostsIdempotent | src/store/utility-costs.ts:20-29 | setting the stored costs again changes nothing |
| UtilityCostsStore.Updated | src/store/utility-costs.ts:31-35 | every entry of the type gets the new price, and the other entries are unchanged |
| UtilityCostsStore.PriceOf | src/store/utility-costs.ts:37-40 | the price of the first entry of the type, or 0 when there is none |
| UtilityCostsStore.PriceAfterUpdate | src/store/utility-costs.ts:31-40 | after an update the type's price is the new one if the type was present; other types keep theirs, and an absent type stays at 0 |
| UtilityCostsStore.PriceAfterSetCosts | src/store/utility-costs.ts:20-40 | filling in the defaults changes no price: a missing type is priced 0 before and after |
| UtilityCostsStore.CostSetsStore.ImportCostSets | src/utils/export.ts:80 | the list of cost sets becomes the imported list |
| UtilityCostsStore.Store.constructor | src/store/utility-costs.ts:17-18 | the store starts with the defaults |
| UtilityCostsStore.Store.SetCosts | src/store/utility-costs.ts:20-29 | the new costs are the given costs with the missing defaults appended |
| UtilityCostsStore.Store.UpdateCost | src/store/utility-costs.ts:31-35 | the new costs are the old costs with the type's price updated |
| UtilityCostsStore.Store.GetCost | src/store/utility-costs.ts:37-40 | returns the price of the type |
| InvoiceSettingsStore.StringArray | src/store/invoice-settings.ts:24-25 | the remarks become a JSON array holding the same strings in the same order |
| InvoiceSettingsStore.StringsOfStringArray | src/store/invoice-settings.ts:24-25 | reading the strings back out of the array gives the remarks |
| InvoiceSettingsStore.Imported | src/store/invoice-settings.ts:27-33 | the result always has a remarks array: it is the given settings when they are truthy and their remarks are an array, and the defaults otherwise |
| InvoiceSettingsStore.ImportIdempotent | src/store/invoice-settings.ts:27-33 | importing what was imported keeps it |
| InvoiceSettingsStore.Store.constructor | src/store/invoice-settings.ts:22 | the settings start with the two default remarks |
| InvoiceSettingsStore.Store.SetRemarks | src/store/invoice-settings.ts:24-25 | the settings are exactly the given remarks |
| InvoiceSettingsStore.Store.ImportSettings | src/store/invoice-settings.ts:27-33 | the settings become the imported settings |
| Migrate.IsLegacy | src/utils/migrate.ts:11 | the definition: a `garbageCost` key is present and `serviceCosts` is absent or falsy |
| Migrate.MigrateUtilityCostSet | src/utils/migrate.ts:10-19 | a legacy set (with a garbage cost and no truthy service costs) loses the garbage cost and gets one service cost carrying it; any other set is returned as it is; every other key is kept, and the result is never legacy |
| Migrate.MigrateIdempotent | src/utils/migrate.ts:10-19 | migrating twice is migrating once, as the source's comment promises |
| Migrate.ServiceCostsArrayWins | src/utils/migrate.ts:11 | a set that already has a service-costs array is left alone, even if it also has a garbage cost |
| Export.FirstBadField | src/utils/export.ts:124-166 | the position of the first rejected field in checking order, or none when no field is rejected |
| Export.FirstProblem | src/utils/export.ts:120-167 | the first item of the `forEach` that fails, with its problem; every earlier item passes |
| Export.Validate | src/utils/export.ts:95-203 | on success the document is an object whose rooms and utility costs are arrays of acceptable items |
| Export.ItemProblemIsNotOk | src/utils/export.ts:120-167 | an item has no problem exactly when it is a truthy object and none of its fields is rejected |
| Export.WellFormed | src/utils/export.ts:95-203 | the definition: an object of the current version with a valid date whose rooms and cost sets, when present, carry their fields with the right types; `Export.ValidateAcceptsWellFormed` ties it to the validator |
| Export.ValidateAcceptsWellFormed | src/utils/export.ts:95-203 | validation succeeds iff the document has the version, a parsable date and acceptable item arrays (an absent array counts as empty); it then returns the document with the array defaults |
| Export.RoomRejectionIsFirst | src/utils/export.ts:120-167 | "Invalid X in room n" names a 1-based index: every earlier room passes, and X is the first rejected field of room n |
| Export.FalsyFieldsAccepted | src/utils/export.ts:124-166 | a field holding a falsy value (0, "", false, null or nothing) is never rejected, whatever its type |
| Export.AbsentArraysAccepted | src/utils/export.ts:110-112 | missing rooms and utility costs are accepted and become empty arrays |
| Export.ServiceCostsMustBeArray | src/utils/export.ts:199-201 | truthy service costs that are not an array are rejected under "service costs" |
| Export.MigrateKeepsValid | src/utils/migrate.ts:10-19 | migrating a valid cost set keeps it valid |
| Export.ValidateExportData | src/utils/export.ts:95-203 | the imperative checks with their `forEach` loops throw exactly the error the specification function names, or assign the defaults |
| Export.CheckEach | src/utils/export.ts:120-167 | the loop over items finds the first item with a problem |
| Export.RoomsJson | src/utils/export.ts:19-20 | each room is written as its JSON record, in order |
| Export.AsRoom | src/utils/export.ts:79 | the definition: a room read field by field from an imported record; `Export.RoomJsonRoundTrip` shows it inverts the export |
| Export.AsRooms | src/utils/export.ts:79 | an imported array of rooms is read record by record |
| Export.MigrateAll | src/utils/export.ts:69-71 | each cost set is migrated, in order |
| Export.RoomJsonRoundTrip | src/utils/export.ts:19-20 | a room written to JSON reads back as the same room, and its record passes validation |
| Export.ExportValidates | src/utils/export.ts:19-28 | an export passes its own validation unchanged when the timestamp parses and every cost set is acceptable |
| Export.ExportToJson | src/utils/export.ts:11-51 | the document holds the three stores' data, the timestamp and the version; it is returned when it validates, else the export-failure message |
| Export.ImportFromJson | src/utils/export.ts:57-88 | fails iff the text does not parse or validation fails, and then nothing changes; otherwise the rooms are set, the cost sets are migrated, and the settings are imported |
| Export.ImportOfExport | src/utils/export.ts:11-88 | importing an export gives back the same rooms, the migrated cost sets and the settings |
| PdfBilling.Ceil | src/lib/pdf-generator.ts:317 | `Math.ceil`: the least integer not below the value |
| PdfBilling.CeilOfInt | src/lib/pdf-generator.ts:317 | an integer is its own ceiling |
| PdfBilling.CalculateTotalVND | src/lib/pdf-generator.ts:31-36 | the amount in VND rounded up to a whole thousand: a multiple of 1000, not below the amount, and less than 1000 above it |
| PdfBilling.CalculateTotalVNDOfWhole | src/lib/pdf-generator.ts:31-36 | a whole amount of thousands is not rounded |
| PdfBilling.IntString | src/lib/pdf-generator.ts:25 | `toString` of an integer: a non-empty digit string whose decimal value is the integer and which has no leading zero, with a minus sign in front when the integer is negative |
| PdfBilling.GroupDigitsStrip | src/lib/pdf-generator.ts:25 | the digit-grouping `replace` only inserts spaces: removing them gives the digits back |
| PdfBilling.GroupDigitsShape | src/lib/pdf-generator.ts:25 | after grouping, the first group has one to three digits and every later group has exactly three |
| PdfBilling.FormatVNDPlain | src/lib/pdf-generator.ts:23-26 | without its spaces, `formatVND` is the floor of the amount times 1000 |
| PdfBilling.FormatVNDGroups | src/lib/pdf-generator.ts:23-26 | a non-negative amount is shown in groups of three digits, the first group of one to three |
| PdfBilling.FormatVND | src/lib/pdf-generator.ts:23-26 | the definition: the amount times 1000, floored, written with its digits and a space between groups of three |
| PdfBilling.ElectricCost | src/lib/pdf-generator.ts:316-317 | the electricity charge is the usage times the price rounded up: not below it and less than one unit above it |
| PdfBilling.WaterCostRounded | src/lib/pdf-generator.ts:167 | the total sheet rounds the water charge up in the same way |
| PdfBilling.InvoiceTotal | src/lib/pdf-generator.ts:381-385 | the invoice total is the subtotal in VND rounded up to a whole thousand |
| PdfBilling.Subtotal | src/lib/pdf-generator.ts:381-384 | the definition: the rounded-up electricity cost plus the water cost, the room price and the garbage fee, before conversion to VND |
| PdfInvoices.SlotGeometry | src/lib/pdf-generator.ts:5-17 | the four slots sit at x = 3 or 110 and y = 3.5 or 153.5 mm, and each card lies on the A4 page |
| PdfInvoices.SlotsDisjoint | src/lib/pdf-generator.ts:263-267 | two different slots of a page never overlap |
| PdfInvoices.DrawHeader | src/lib/pdf-generator.ts:291-297 | the room and date line lies inside the card |
| PdfInvoices.DrawMeter | src/lib/pdf-generator.ts:300-329 | a meter section: title, new and old readings, the usage times the unit price, and the charge, all inside the card |
| PdfInvoices.DrawCharges | src/lib/pdf-generator.ts:360-404 | rent, garbage, total and the two footer lines, all inside the card |
| PdfInvoices.DrawInvoice | src/lib/pdf-generator.ts:278-405 | everything drawn for one invoice lies inside its card |
| PdfInvoices.FiguresAppend | src/lib/pdf-generator.ts:278-405 | the right-aligned figures of two runs of marks are those of the first followed by those of the second |
| PdfInvoices.FiguresStep | src/lib/pdf-generator.ts:278-405 | the right-aligned figures of a run, one mark at a time |
| PdfInvoices.FiguresOfMeter | src/lib/pdf-generator.ts:318-328 | a meter section has one right-aligned figure: its formatted charge |
| PdfInvoices.FiguresOfCharges | src/lib/pdf-generator.ts:360-395 | the charges section's figures are the rent, the garbage fee and the grouped total |
| PdfInvoices.InvoiceFigures | src/lib/pdf-generator.ts:278-405 | the right-hand column of an invoice reads: electricity charge, exact water charge, rent, garbage fee and total, in that order |
| PdfInvoices.InvoiceFooter | src/lib/pdf-generator.ts:398-404 | the footer lines are the two default invoice remarks |
| PdfInvoices.PageCount | src/lib/pdf-generator.ts:248-249 | `Math.ceil(n / 4)`: exactly enough pages for n invoices, and the last page is not empty |
| PdfInvoices.PageStart | src/lib/pdf-generator.ts:251-260 | every page starts at an invoice that exists |
| PdfInvoices.CardAt | src/lib/pdf-generator.ts:257-269 | invoice 4p+i goes on page p, in slot i |
| PdfInvoices.GenerateInvoicePDF | src/lib/pdf-generator.ts:235-276 | one card per room, in order (room k on page k/4 in slot k mod 4), drawn as the specification of the marks says |
| PdfInvoices.DrawPage | src/lib/pdf-generator.ts:257-270 | one page adds the cards of its slice of rooms |
| PdfInvoices.DrawSlot | src/lib/pdf-generator.ts:263-269 | one slot adds the next room's card and its marks |
| PdfInvoices.AppendCard | src/lib/pdf-generator.ts:263-269 | drawing one more card appends exactly its marks |
| PdfInvoices.PageContents | src/lib/pdf-generator.ts:257-260 | page p holds exactly the invoices 4p to 4p+3 |
| PdfInvoices.CardsDoNotOverlap | src/lib/pdf-generator.ts:251-270 | every card lies on its page, and two cards on the same page never overlap |
| PdfInvoices.MarksInCards | src/lib/pdf-generator.ts:251-270 | every mark of the document lies inside some card |
| PdfTotalSheet.ColXIsPrefixSum | src/lib/pdf-generator.ts:128-137 | the left edge of column i is the table's start plus the widths of the columns before it |
| PdfTotalSheet.TableCentred | src/lib/pdf-generator.ts:94-107 | the columns add up to 205 mm and start at 2.5 mm, so the table is centred on the page |
| PdfTotalSheet.RowCells | src/lib/pdf-generator.ts:161-180 | a data row has one cell per column |
| PdfTotalSheet.TotalsConsistent | src/lib/pdf-generator.ts:140-154 | the grand total is the sum of the four column totals, and the garbage total is one fee per room |
| PdfTotalSheet.GrandTotalIsSumOfRows | src/lib/pdf-generator.ts:140-168 | the grand total of the `reduce` equals the sum of the totals printed on the rows |
| PdfTotalSheet.TotalCells | src/lib/pdf-generator.ts:209-218 | the totals row has one cell per column |
| PdfTotalSheet.VerticalLayout | src/lib/pdf-generator.ts:109-203 | printed bottom-up, the totals row ends on the bottom margin; otherwise it sits one spacing below the last row (with no gap when bottom-up with a dated title) |
| PdfTotalSheet.SheetFits | src/lib/pdf-generator.ts:109-203 | the table stays within both margins exactly when the block has at most 26 rooms |
| PdfTotalSheet.CellBoxes | src/lib/pdf-generator.ts:132-137 | one outline per cell drawn |
| PdfTotalSheet.HeaderMarks | src/lib/pdf-generator.ts:131-137 | one heading per column |
| PdfTotalSheet.RowMarks | src/lib/pdf-generator.ts:182-194 | one text per cell of a row |
| PdfTotalSheet.RowsMarks | src/lib/pdf-generator.ts:158-196 | one text per cell of every row |
| PdfTotalSheet.RowsBoxes | src/lib/pdf-generator.ts:158-196 | one outline per cell of every row |
| PdfTotalSheet.RowsMarksAt | src/lib/pdf-generator.ts:158-196 | the text for cell i of row r is that row's cell i, placed at the row's height |
| PdfTotalSheet.RowMarksAt | src/lib/pdf-generator.ts:182-194 | the text for cell i is cell i, with that column's alignment |
| PdfTotalSheet.TotalRowContents | src/lib/pdf-generator.ts:209-232 | the totals row prints "Tổng cộng" on the left and the five totals right-aligned in their columns; empty cells print nothing |
| PdfTotalSheet.DrawTotalSheet | src/lib/pdf-generator.ts:80-233 | the sheet's texts and outlines: title, header, rows and totals, as the layout functions define them |
| PdfTotalSheet.DrawHeaderRow | src/lib/pdf-generator.ts:131-138 | the header loop draws every heading and outline |
| PdfTotalSheet.DrawTotalsRow | src/lib/pdf-generator.ts:220-232 | the totals loop draws the non-empty cells |
| PdfTotalSheet.DrawRows | src/lib/pdf-generator.ts:158-196 | the rows loop draws every row |
| PdfTotalSheet.DrawRow | src/lib/pdf-generator.ts:182-194 | the cells loop draws every cell and outline |
| PdfTotalSheet.GenerateTotalSheetPDF | src/lib/pdf-generator.ts:41-78 | one page per block, the blocks in sorted order; each page's text and cell borders are those of its own block's table |
| PdfTotalSheet.BlocksArePages | src/lib/pdf-generator.ts:53-73 | the blocks are sorted and distinct, they are exactly the blocks of the rooms, and the pages together print every room once |
| PdfReceivingSheet.MaxColumnsPerPage | src/lib/pdf-generator.ts:433-435 | a landscape A4 page has nine columns |
| PdfReceivingSheet.NextColumn | src/lib/pdf-generator.ts:462-473 | a column break moves to the top of the next column of the page, 30 mm to the right, or, after the ninth column, to the first column of a new page |
| PdfReceivingSheet.NextColumnValid | src/lib/pdf-generator.ts:462-474 | moving to the next column, or to a new page, keeps the cursor in a column and after every line already written |
| PdfReceivingSheet.BeforeLine | src/lib/pdf-generator.ts:461-474 | before a line the cursor stays where it is when the line fits above the bottom margin, and otherwise moves to the top of the next column (or of a new page); either way the line then fits and nothing moves back |
| PdfReceivingSheet.AppendEntry | src/lib/pdf-generator.ts:484-485 | writing a line and moving down keeps the lines in reading order |
| PdfReceivingSheet.AfterBlock | src/lib/pdf-generator.ts:488-503 | after a block the cursor moves down by the 12 mm gap when the gap fits above the bottom margin, and otherwise to the top of the next column (or of a new page) |
| PdfReceivingSheet.ReceivingOrderProperties | src/lib/pdf-generator.ts:443-460 | the printed order lists every room exactly once, and it is sorted by block and, inside a block, by room number |
| PdfReceivingSheet.ReceivingOrder | src/lib/pdf-generator.ts:443-460 | the definition: the rooms of each block in ascending block order, each block's rooms by room number |
| PdfReceivingSheet.BlockLines | src/lib/pdf-generator.ts:458-486 | the layout of one block: one line per room, each placed by the page-break rule and followed by a step of one line height; the cursor stays valid |
| PdfReceivingSheet.Layout | src/lib/pdf-generator.ts:453-504 | the layout of a list of blocks: each block's lines after the earlier blocks', with the gap rule after each block; the cursor stays valid |
| PdfReceivingSheet.BlockLinesStep | src/lib/pdf-generator.ts:458-486 | the layout of a block with one more room is the earlier layout followed by that room's line |
| PdfReceivingSheet.LayoutStep | src/lib/pdf-generator.ts:453-504 | the layout with one more block is the earlier layout followed by that block's lines and the gap after it |
| PdfReceivingSheet.ChainedOrdered | src/lib/pdf-generator.ts:460-486 | every line comes after all earlier ones in reading order, so no two lines overlap |
| PdfReceivingSheet.LinesSnoc | src/lib/pdf-generator.ts:476-485 | a placed line showing the next room extends what has been printed |
| PdfReceivingSheet.LinesLater | src/lib/pdf-generator.ts:468-473 | starting a new page keeps what was printed on the earlier ones |
| PdfReceivingSheet.ReceivingSheet | src/lib/pdf-generator.ts:425-505 | the lines and the page count are those of the layout the column rule gives for the blocks in sorted order; one line per room in that order, each showing the room's name and unrounded total, lying on its page and coming after the line before it |
| PdfReceivingSheet.PrintBlocks | src/lib/pdf-generator.ts:453-504 | the blocks loop writes exactly the layout of the given blocks: each block's lines by room number, then the gap after the block |
| PdfReceivingSheet.PrintBlock | src/lib/pdf-generator.ts:458-486 | the rooms loop of one block appends exactly that block's lines, each placed by the page-break rule before it, and leaves the cursor where that layout ends |
| PdfReceivingSheet.PrintNextBlock | src/lib/pdf-generator.ts:456-503 | one iteration of the blocks loop extends the layout by one block |
| PdfReceivingSheet.PrintNext | src/lib/pdf-generator.ts:460-485 | one iteration of the rooms loop extends the block's layout by one line |
| PdfReceivingSheet.PrintLine | src/lib/pdf-generator.ts:460-485 | one room's line: placed by the page-break rule, showing the room's name and total, then one line down |
| Grouping.ByNumberTotalPreorder | src/components/printing-stage.tsx:72 | comparing room numbers is a total preorder, which the sort needs |
| Grouping.Blocks | src/components/printing-stage.tsx:61-69 | one block per distinct block number of the rooms |
| Grouping.BlockGroupsOf | src/components/printing-stage.tsx:60-75 | one group per block, in sorted block order; each group holds its block's rooms sorted by number |
| Grouping.BlockGroups | src/components/printing-stage.tsx:60-75 | the `reduce` into a `Map`, the sort of its entries and the `map` compute exactly the block groups |
| Grouping.SortGroups | src/components/printing-stage.tsx:68-74 | the `map` over sorted entries gives each block its group |
| Grouping.AllRoomsOfGroups | src/components/printing-stage.tsx:68-74 | laying out groups that each hold their block's rooms sorted by number gives the sorted groups of those blocks |
| Grouping.BlockGroupsPermutation | src/components/printing-stage.tsx:60-75 | the groups together hold every room exactly once |
| Grouping.BlockGroupsAscend | src/components/printing-stage.tsx:68-69 | the groups' blocks strictly ascend |
| Grouping.BlocksAscend | src/components/printing-stage.tsx:68-69 | the sorted distinct blocks strictly ascend |
| Grouping.SortedGroupsBlocks | src/lib/pdf-generator.ts:453-460 | every room of the laid-out groups has one of the listed blocks |
| Grouping.SortedGroupsInOrder | src/lib/pdf-generator.ts:453-460 | groups of strictly ascending blocks, each sorted by number, laid out one after another are sorted by block then number |
| Grouping.LaidOutInOrder | src/lib/pdf-generator.ts:453-460 | the rooms laid out block by block in sorted block order, each block by number, are a permutation of the rooms sorted by block then number |
| Grouping.BlocksCover | src/components/printing-stage.tsx:61-66 | every room's block is a group, and every group is some room's block |
| Grouping.InGroup | src/components/printing-stage.tsx:61-72 | a room is in the group of a block exactly when it has that block |
| Grouping.BlockGroupRooms | src/components/printing-stage.tsx:60-75 | no group is empty; each is sorted by number and is a permutation of the rooms with its block |
| Grouping.AllSelectedIff | src/components/printing-stage.tsx:73 | a block's box is ticked exactly when every room of the block is selected |
| Grouping.Every | src/components/printing-stage.tsx:73 | the `every` loop decides that |
| Grouping.SelectionOf | src/components/printing-stage.tsx:70-74 | the `isAllSelected` of each group |
| Grouping.GroupsSelectedIff | src/components/printing-stage.tsx:70-74 | each group's flag is ticked exactly when every room in the input with that block is selected |
| Grouping.Toggled | src/components/printing-stage.tsx:77-85 | after a room's box is changed, the room is selected exactly when the box is checked, and no other room changes |
| Grouping.SetAll | src/components/printing-stage.tsx:91-97 | the listed names are all set to the box's value, and the others are unchanged |
| Grouping.NamesOf | src/components/printing-stage.tsx:89-97 | the names of the rooms, in order |
| Grouping.NamesOfKeyed | src/components/preparation-stage.tsx:123-138 | the names of a group, however it is sorted, are those of the rooms with its key |
| Grouping.BlockSelect | src/components/printing-stage.tsx:87-100 | after a block's box is changed, exactly the rooms of that block follow the box, and every other selection is kept |
| Grouping.BlockThenNumberTotalPreorder | src/components/printing-stage.tsx:102-103 | the block-then-number comparator is a total preorder |
| Grouping.IsSelected | src/components/printing-stage.tsx:102 | the filter keeps exactly the selected rooms |
| Grouping.SelectedSortedProperties | src/components/printing-stage.tsx:102-103 | the list shown holds exactly the selected rooms, each as often as in the input, sorted by block then number |
| RoomSelectionDialog.InitialBlockOfBlocks | src/components/room-selection-dialog.tsx:47-52 | the first open tab is the first block in sorted order; it is empty exactly when there are no rooms |
| RoomSelectionDialog.InitialBlockIsFirst | src/components/room-selection-dialog.tsx:47-52 | the first tab is some room's block, and it sorts before the block of every other room |
| RoomSelectionDialog.ConfirmedMatchesShown | src/components/room-selection-dialog.tsx:81-95 | the rooms confirmed (in their original order) are the rooms listed (sorted) |
| RoomSelectionDialog.Dialog.constructor | src/components/room-selection-dialog.tsx:27-52 | nothing is selected, and the first block's tab is open |
| RoomSelectionDialog.Dialog.BlockGroups | src/components/room-selection-dialog.tsx:30-45 | the block groups, and for each one whether every room of the block is selected |
| RoomSelectionDialog.Dialog.HandleRoomSelect | src/components/room-selection-dialog.tsx:54-62 | the selection toggles that one room |
| RoomSelectionDialog.Dialog.HandleBlockSelect | src/components/room-selection-dialog.tsx:64-79 | exactly the rooms of the block follow the box |
| RoomSelectionDialog.Dialog.HandleConfirm | src/components/room-selection-dialog.tsx:81-87 | the selected rooms, in their original order |
| RoomSelectionDialog.Dialog.SelectedRoomsList | src/components/room-selection-dialog.tsx:89-95 | the selected rooms sorted by block then number |
| PrintingStage.DefaultOptions | src/components/printing-stage.tsx:39-51 | invoices on, the total sheet off, top-down, the date included, and the 10th of the current month as the date |
| PrintingStage.EffectiveCostSet | src/components/printing-stage.tsx:53-58 | a chosen cost set is kept; with none chosen the first set is chosen, if there is one |
| PrintingStage.EffectiveCostSetStable | src/components/printing-stage.tsx:53-58 | running the effect again changes nothing |
| PrintingStage.SumFeesAppend | src/components/printing-stage.tsx:124 | the service fees of two lists add up |
| PrintingStage.GarbageFeeAsWritten | src/components/printing-stage.tsx:124 | the definition as the source writes it (Findings row 1): the legacy field, absent on a set without it |
| PrintingStage.GarbageFee | src/components/printing-stage.tsx:124 | the corrected fee of Findings row 1: the sum of the set's service costs, or the legacy field (0 when absent) on a set without service costs |
| PrintingStage.GarbageFeeOfLegacySet | src/components/printing-stage.tsx:124 | on a legacy set without service costs, the field the source reads has the fee |
| PrintingStage.GarbageFeeOfMigratedSet | src/components/printing-stage.tsx:124 | on a migrated set the field the source reads is absent, though the set carries the fee as its one service cost |
| PrintingStage.GarbageFeeOfNewSet | src/components/printing-stage.tsx:124 | on a set made by the cost dialogs the field the source reads is absent; the intended fee is the sum of the service costs |
| PrintingStage.UtilityOf | src/components/printing-stage.tsx:121-134 | the utility data carries the set's prices, the corrected garbage fee of Findings row 1, the date texts and the chosen options |
| PrintingStage.PrintRooms | src/components/printing-stage.tsx:111-120 | each room's print data, in order |
| PrintingStage.Print | src/components/printing-stage.tsx:105-171 | the definition: no request without a cost set, a selected room and a date; otherwise the sorted selected rooms, their print data and the utility data; `PrintingStage.PrintGuard` and `PrintingStage.PrintContents` state its meaning |
| PrintingStage.PrintGuard | src/components/printing-stage.tsx:106-108 | printing happens exactly when a cost set is chosen, some room is selected and a date is set |
| PrintingStage.PrintContents | src/components/printing-stage.tsx:110-171 | what is printed and reported: the sorted selected rooms, their print data in the same order, the utility data with the corrected garbage fee of Findings row 1, the set and the options |
| PrintingStage.SelectedRoomsListProperties | src/components/printing-stage.tsx:102-103 | the rooms printed are exactly the selected ones, each as often as in the input, sorted by block then number |
| PrintingStage.Stage.constructor | src/components/printing-stage.tsx:34-51 | nothing selected, no cost set, the default options |
| PrintingStage.Stage.SelectFirstCostSet | src/components/printing-stage.tsx:53-58 | the effect chooses the effective cost set and changes nothing else |
| PrintingStage.Stage.BlockGroups | src/components/printing-stage.tsx:60-75 | the block groups, and for each one whether every room of the block is selected |
| PrintingStage.Stage.HandleRoomSelect | src/components/printing-stage.tsx:77-85 | the selection toggles that one room |
| PrintingStage.Stage.HandleBlockSelect | src/components/printing-stage.tsx:87-100 | exactly the rooms of the block follow the box |
| PrintingStage.Stage.HandlePrint | src/components/printing-stage.tsx:105-172 | returns the print request, priced with the corrected garbage fee of Findings row 1, or nothing when the guard stops it |
| PreparationStage.ParseDateKeyOfParts | src/components/preparation-stage.tsx:86-87 | a key of the form `dd/MM/yyyy` reads back as its day, month and year |
| PreparationStage.DateCompare | src/components/preparation-stage.tsx:84-93 | the definition: years compared first, then months, then days |
| PreparationStage.DateCompareProperties | src/components/preparation-stage.tsx:84-93 | the comparator is antisymmetric, and negative exactly when the first date is earlier (year, then month, then day) |
| PreparationStage.DateLeTotalPreorder | src/components/preparation-stage.tsx:84-93 | the order it sorts by is a total preorder |
| PreparationStage.BlockRoomGroups | src/components/preparation-stage.tsx:43-67 | one group per block in block order, keyed `block-<b>`, titled `Dãy <b>`, holding the block's rooms by number, ticked when all are selected |
| PreparationStage.DateRoomGroups | src/components/preparation-stage.tsx:69-107 | one group per day in the order of the date comparator, keyed `date-<k>`, titled `Ngày <k>` |
| PreparationStage.GroupTicks | src/components/preparation-stage.tsx:63-65 | a group is ticked exactly when every room in it is selected |
| PreparationStage.DateGroupsAscend | src/components/preparation-stage.tsx:83-93 | the day groups run from the oldest day to the newest |
| PreparationStage.DateGroupMembers | src/components/preparation-stage.tsx:72-102 | a day's group holds exactly the rooms of that day, sorted by block then number, and every room's day has a group |
| PreparationStage.GroupKeysDistinct | src/components/preparation-stage.tsx:40-111 | no two groups share a key, in either grouping |
| PreparationStage.FindGroup | src/components/preparation-stage.tsx:125 | `find` by key: none exactly when no group has the key, else a group with it |
| PreparationStage.FindGroupAt | src/components/preparation-stage.tsx:125 | with distinct keys, finding a group's key gives that group |
| PreparationStage.BlockGroupReaches | src/components/preparation-stage.tsx:123-138 | the key `block-<b>` of an existing block finds a group naming exactly that block's rooms |
| PreparationStage.DateGroupReaches | src/components/preparation-stage.tsx:123-138 | the key `date-<k>` of an existing day finds a group naming exactly that day's rooms |
| PreparationStage.UnknownGroupKey | src/components/preparation-stage.tsx:125-127 | a key with neither prefix finds nothing, so the selection does not change |
| PreparationStage.BlockIndex | src/components/preparation-stage.tsx:56-58 | an existing block has a position among the sorted blocks |
| PreparationStage.DateIndex | src/components/preparation-stage.tsx:83-94 | an existing day has a position among the sorted days |
| PreparationStage.Confirmed | src/components/preparation-stage.tsx:140-145 | the definition: the selected rooms in their original order |
| PreparationStage.ConfirmedProperties | src/components/preparation-stage.tsx:140-145 | the confirmed rooms are exactly the selected ones; the filter splits over concatenation; when every room is selected it keeps the whole list |
| PreparationStage.Stage.constructor | src/components/preparation-stage.tsx:37-38 | nothing selected; grouped by date |
| PreparationStage.Stage.SetGroupBy | src/components/preparation-stage.tsx:155 | the grouping changes and the selection is kept |
| PreparationStage.Stage.RoomGroups | src/components/preparation-stage.tsx:40-111 | the groups of the current grouping |
| PreparationStage.Stage.HandleRoomSelect | src/components/preparation-stage.tsx:113-121 | the selection toggles that one room |
| PreparationStage.Stage.HandleGroupSelect | src/components/preparation-stage.tsx:123-138 | an unknown key changes nothing; otherwise exactly the group's rooms follow the box |
| PreparationStage.Stage.HandleConfirm | src/components/preparation-stage.tsx:140-145 | the selected rooms in their original order |
| PreparationStage.BlockGroupsList | src/components/preparation-stage.tsx:43-67 | the by-block branch's `forEach` with its `Map` gives the block groups |
| PreparationStage.BlockEntries | src/components/preparation-stage.tsx:56-67 | the `forEach` over sorted entries pushes one group per entry |
| PreparationStage.BlockEntry | src/components/preparation-stage.tsx:59-66 | one push builds the block's group |
| PreparationStage.DateGroupsList | src/components/preparation-stage.tsx:69-107 | the by-date branch gives the day groups |
| PreparationStage.DateEntries | src/components/preparation-stage.tsx:83-107 | the `forEach` over sorted days pushes one group per day |
| PreparationStage.DateEntry | src/components/preparation-stage.tsx:95-106 | one push builds the day's group |
| App.IsCalculating | src/App.tsx:172-175 | the definition: the preparation and calculation modes |
| App.IsPrinting | src/App.tsx:176 | the definition: the printing mode |
| App.PrintButtonText | src/App.tsx:191-193 | the definition: "Exit Printing" while printing, "Print" otherwise |
| App.ToggledCalculation | src/App.tsx:116-126 | the definition: a calculation in progress ends, the table starts one, and printing is left as it is |
| App.ToggledPrinting | src/App.tsx:128-130 | the definition: printing ends, and any other mode starts printing |
| App.ToolbarFlags | src/App.tsx:172-193 | the toolbar never shows calculating and printing at once; the button says "Exit Printing" exactly while printing; the table is shown exactly when neither |
| App.ToggleTwice | src/App.tsx:116-130 | toggling printing twice returns to printing or to the table; toggling the calculation twice from a stage starts afresh; the calculation button changes the mode except while printing |
| App.App.constructor | src/App.tsx:65-66 | the application opens on the room table |
| App.App.HandlePrint | src/App.tsx:75-83 | after printing the table is shown |
| App.App.HandlePreparationComplete | src/App.tsx:85-88 | the chosen rooms become the calculation, and the calculation stage is shown |
| App.App.HandleSaveCalculations | src/App.tsx:90-106 | the rooms store takes the updated rooms, the session merges them, a cloud save follows exactly when a cloud name is set, and the calculation is cleared on the table |
| App.App.HandleToggleCalculation | src/App.tsx:116-126 | the mode toggles; leaving a calculation clears it, and otherwise the calculation rooms are unchanged |
| App.App.HandleTogglePrinting | src/App.tsx:128-130 | the mode toggles printing |
| App.App.CancelCalculation | src/App.tsx:146-149 | the calculation stage's cancel clears the calculation and shows the table |
| App.App.CancelStage | src/App.tsx:157 | the printing (and preparation) stage's cancel shows the table |
| CalculationStage.Clamp | src/components/calculation-stage.tsx:107 | `Math.max(0, x)` on the typed number: never negative, never below the input, either the input or 0, and whole when the input is |
| CalculationStage.EditChangesOneField | src/components/calculation-stage.tsx:109-131 | an edit sets the edited price to the typed value, or the edited reading to a whole typed value, and leaves every other field of the row as it was |
| CalculationStage.Stored | src/components/calculation-stage.tsx:81-93 | the room's errors become the given set, its entry exists exactly when the set is not empty, and other rooms keep theirs |
| CalculationStage.Flagged | src/components/calculation-stage.tsx:65-79 | the definition: the error an edit raises, a new reading below the current one, whichever of the two readings was typed |
| CalculationStage.ValidatedAsWritten | src/components/calculation-stage.tsx:54-96 | the definition as the source writes it (Findings row 2): a negative value changes nothing; otherwise the error named after the edited field is removed, the edit's errors are added, and the room's entry is stored or removed |
| CalculationStage.Validated | src/components/calculation-stage.tsx:54-96 | the corrected definition of Findings row 2: as the source, but the error of the edited reading pair is removed before it is recomputed; `CalculationStage.ValidatedFlagsIff` states its meaning |
| CalculationStage.ValidatedFlagsIff | src/components/calculation-stage.tsx:54-96 | after the corrected check, an edit of either electricity reading to a whole value flags the room exactly when its new reading is below its current one (water likewise); the other flag and the other rooms are unchanged |
| CalculationStage.ValidatedKeepsWellFormed | src/components/calculation-stage.tsx:54-96 | only the two new-reading errors are ever stored, never as an empty set, both as written and corrected |
| CalculationStage.ValidatedAgreesOnOtherEdits | src/components/calculation-stage.tsx:54-96 | when the edit is of a new reading or of the room price, and the errors held are reading errors only, the corrected validator gives the same errors as the source's |
| CalculationStage.StaleElectricError | src/components/calculation-stage.tsx:57-71 | a concrete room whose current electricity reading is lowered below the new one keeps its error as written, and loses it once corrected |
| CalculationStage.FindRoom | src/components/calculation-stage.tsx:103-104 | `find` by name: none exactly when no entry has the name, else the first entry with it |
| CalculationStage.SavedRoomShifts | src/components/calculation-stage.tsx:139-149 | saving keeps the room's identity and price and shifts the readings: the entered readings become current and the old current ones previous, so the next invoice bills what was entered, and the next calculation starts from them |
| CalculationStage.SavedRooms | src/components/calculation-stage.tsx:139-149 | each entry is saved in order |
| CalculationStage.Toggle | src/components/calculation-stage.tsx:153-161 | the room's edit mode flips and no other room's changes |
| CalculationStage.ToggleInvolution | src/components/calculation-stage.tsx:153-161 | toggling twice restores the set |
| CalculationStage.Stage.constructor | src/components/calculation-stage.tsx:31-36 | the first room's block is open (none without rooms); nothing is edited and no error is stored |
| CalculationStage.Stage.BlockGroups | src/components/calculation-stage.tsx:38-52 | the rooms' block groups |
| CalculationStage.Stage.ValidateInput | src/components/calculation-stage.tsx:54-96 | returns the value and stores the errors of the corrected check |
| CalculationStage.Stage.HandleInputChange | src/components/calculation-stage.tsx:98-132 | an unknown room changes nothing; otherwise the clamped value patches the room's entries and its errors are revalidated by the corrected check of Findings row 2 |
| CalculationStage.Stage.HandleAddRooms | src/components/calculation-stage.tsx:134-136 | the added rooms are converted and appended in order |
| CalculationStage.Stage.HandleSave | src/components/calculation-stage.tsx:138-151 | the rooms handed on are the saved entries |
| CalculationStage.Stage.ToggleEdit | src/components/calculation-stage.tsx:153-161 | the room's edit mode flips |
| RoomDialog.ParseRoomName | src/components/room-dialog.tsx:27-36 | the definition: the trimmed name parses when it is one letter followed by at least one digit, giving the upper-cased letter as block and the digits' decimal value as number; `RoomDialog.ParsedIsRoomName` and the lemmas after it state its meaning |
| RoomDialog.ParsedIsRoomName | src/components/room-dialog.tsx:27-36 | a name that parses is one letter and at least one digit, with only white space around them |
| RoomDialog.RoomNameParses | src/components/room-dialog.tsx:27-36 | such a name parses to its upper-cased letter as the block and the decimal value of its digits as the number |
| RoomDialog.ParseRoomNameAccepts | src/components/room-dialog.tsx:28-29 | the regular expression accepts a trimmed name exactly when it is one letter followed by digits |
| RoomDialog.LeadingZerosVanish | src/components/room-dialog.tsx:34 | `parseInt` drops leading zeros: "a01" is block "A", room 1 |
| RoomDialog.ParseIgnoresCase | src/components/room-dialog.tsx:27-36 | upper-casing a name does not change how it parses |
| RoomDialog.ParseLetterDigits | src/components/room-dialog.tsx:27-36 | a letter followed by digits parses to the upper-cased letter and the digits' value |
| RoomDialog.ParseRoundTrip | src/components/room-dialog.tsx:27-36 | a letter followed by a number's decimal digits parses back to that letter and number |
| RoomDialog.TypedName | src/components/room-dialog.tsx:72-84 | typing stores the upper-cased name, takes the block and number from it when it parses, and leaves every other field alone |
| RoomDialog.Submit | src/components/room-dialog.tsx:87-135 | the definition: the checks of `handleSubmit` in the source's order (name required, name format, name taken, then price, electricity and water), and the save when all pass; `RoomDialog.SubmitSavesIff` states its meaning |
| RoomDialog.NameError | src/components/room-dialog.tsx:52-70 | the definition: the message of the first failing name check, or none; `RoomDialog.TypingAgreesWithSubmit` relates it to the submit checks |
| RoomDialog.SubmitSavesIff | src/components/room-dialog.tsx:87-135 | a save happens exactly when the name is present, parses and is not taken by another room, and the three numbers are non-negative; the saved room's block and number are its name's, and a new room's previous readings are 0 |
| RoomDialog.TypingAgreesWithSubmit | src/components/room-dialog.tsx:52-111 | the message shown while typing is empty exactly when submitting that form raises no name error |
| RoomDialog.Dialog.constructor | src/components/room-dialog.tsx:39-50 | the form holds the room being edited, or the blank new room, and no error is shown |
| RoomDialog.Dialog.HandleRoomNameChange | src/components/room-dialog.tsx:52-85 | the name's message, and the typed form |
| RoomDialog.Dialog.HandleSubmit | src/components/room-dialog.tsx:87-135 | the outcome of the checks on the form; a name rejection shows its message, and nothing else changes |
| RoomTable.FuzzyFilter | src/components/room-table.tsx:30-36 | the definition: a string cell matches a string filter when its lower-cased form contains the filter's; `RoomTable.FuzzyFilterMatches` states its meaning |
| RoomTable.FuzzyFilterMatches | src/components/room-table.tsx:30-36 | a string cell passes exactly when the lower-cased filter occurs in the lower-cased cell; the empty filter passes every string cell |
| RoomTable.RoomCompare | src/components/room-table.tsx:38-55 | the definition: the block comparison when it is not 0, else the difference of the room numbers |
| RoomTable.RoomCompareProperties | src/components/room-table.tsx:38-55 | the table's comparator is antisymmetric, is 0 only for rooms with the same block and number, and orders as the block-then-number order of the other lists |
| RoomTable.BlockNumbers | src/components/room-table.tsx:198 | the definition: the distinct block numbers in order of first occurrence |
| RoomTable.BlockNumbersProperties | src/components/room-table.tsx:198 | the block filter lists every block of the rooms once, in the order of each block's first room |
| RoomTable.AsRoom | src/components/room-table.tsx:92-101 | the definition: the record of a patch that carries every field, and nothing otherwise |
| RoomTable.AsRoomRoundTrip | src/components/room-table.tsx:92-101 | the `as Room` cast gives a room back exactly from a patch carrying all of its fields |
| RoomTable.NewRoomSavesComplete | src/components/room-table.tsx:92-101 | the blank form is filled in, typing keeps it so, and a saved new room therefore casts to a complete room |
| RoomTable.Table.constructor | src/components/room-table.tsx:57-61 | no room selected, both dialogs closed |
| RoomTable.Table.HandleEdit | src/components/room-table.tsx:77-80 | the room is selected and the edit dialog opens |
| RoomTable.Table.HandleDelete | src/components/room-table.tsx:82-85 | the room is selected and the delete dialog opens |
| RoomTable.Table.HandleAddNew | src/components/room-table.tsx:87-90 | no room is selected and the edit dialog opens |
| RoomTable.Table.HandleSave | src/components/room-table.tsx:92-101 | a selected room is edited by name; otherwise a complete room is appended; the dialog closes |
| RoomTable.Table.HandleConfirmDelete | src/components/room-table.tsx:103-108 | without a selected room nothing happens; otherwise its name is deleted and the dialog closes |
| Text.TrimIsSlice | src/components/edit-invoice-remarks-dialog.tsx:30 | `trim` removes the white space at both ends and nothing else: the result is a slice with only white space around it, and it neither starts nor ends with white space |
| Text.TrimUpper | src/components/room-dialog.tsx:28-33 | trimming and upper-casing commute |
| Text.TrimPadded | src/components/room-dialog.tsx:28 | a core without white space at its ends, padded with white space, trims to the core |
| Text.ValueOfDigits | src/components/room-dialog.tsx:34 | `parseInt` of a number's decimal digits is the number |
| Text.CompareZero | src/components/room-table.tsx:43 | the string comparison is 0 exactly on equal strings |
| Text.CompareAntisymmetric | src/components/room-table.tsx:43 | swapping the arguments negates the comparison |
| Text.CompareTransitive | src/components/printing-stage.tsx:69 | the comparison is transitive, so sorting by it is well defined |
| Text.ContainsIsSubstring | src/components/room-table.tsx:33 | `includes` holds exactly when the text occurs at some position |
| Text.Split | src/components/edit-invoice-remarks-dialog.tsx:29 | `split` gives at least one piece, and no piece holds the separator |
| Text.SplitAround | src/components/edit-invoice-remarks-dialog.tsx:29 | splitting two texts joined by the separator gives the pieces of each |
| Text.SplitJoin | src/components/edit-invoice-remarks-dialog.tsx:25-29 | splitting the lines joined by a line break gives the lines back, when no line holds one |
| Text.StripAppend | src/lib/pdf-generator.ts:25 | removing a character from a concatenation removes it from each part |
| Seqs.Filter | src/store/rooms.ts:46-48 | `filter` keeps exactly the elements that pass, in order |
| Seqs.FilterAppend | src/components/edit-invoice-remarks-dialog.tsx:31 | filtering splits over concatenation |
| Seqs.KeysInOrder | src/components/printing-stage.tsx:61-68 | the keys of a `Map` built in order: each key once, exactly the keys of the elements |
| Seqs.KeysInFirstOccurrenceOrder | src/components/room-table.tsx:198 | the keys come in the order of their first element |
| Seqs.GroupBy | src/components/preparation-stage.tsx:45-53 | the grouping loop gives the keys in first-occurrence order and, for each key, its elements in order |
| Seqs.ConcatGroupsIsPermutation | src/lib/pdf-generator.ts:53-73 | laying out the groups of all keys holds every element once |
| Seqs.SortedGroupsPermutation | src/components/printing-stage.tsx:68-74 | sorting each group keeps the groups' elements |
| Seqs.SortBy | src/components/printing-stage.tsx:72 | `sort` keeps the elements, each as often |
| Seqs.SortBySorted | src/components/printing-stage.tsx:72 | `sort` with a total preorder leaves the elements sorted |
| Seqs.InsertStable | src/components/printing-stage.tsx:72 | an element inserted into a run goes in front of every element of the run tied with it |
| Seqs.SortByStable | src/components/printing-stage.tsx:72 | `sort` is stable: the elements the comparator cannot tell apart keep their input order |
| RemarksDialog.InitialText | src/components/edit-invoice-remarks-dialog.tsx:25 | the definition: the remarks joined with line breaks |
| RemarksDialog.CleanLines | src/components/edit-invoice-remarks-dialog.tsx:28-31 | the definition: the text split at line breaks, each line trimmed, the empty lines dropped; `RemarksDialog.SavedRemarksClean` and `RemarksDialog.SaveInitialText` state its meaning |
| RemarksDialog.Trimmed | src/components/edit-invoice-remarks-dialog.tsx:30 | each line trimmed, in order |
| RemarksDialog.TrimIdempotent | src/components/edit-invoice-remarks-dialog.tsx:30 | trimming twice is trimming once, and adds no character |
| RemarksDialog.SavedRemarksClean | src/components/edit-invoice-remarks-dialog.tsx:27-34 | every saved remark is non-empty, trimmed and on one line |
| RemarksDialog.TrimmedAppend | src/components/edit-invoice-remarks-dialog.tsx:30 | trimming splits over concatenation |
| RemarksDialog.CleanLinesAppend | src/components/edit-invoice-remarks-dialog.tsx:27-34 | the remarks of two texts joined by a line break are those of the first followed by those of the second |
| RemarksDialog.SaveInitialText | src/components/edit-invoice-remarks-dialog.tsx:25-34 | opening the dialog on clean remarks and saving without an edit gives the same remarks back |
| RemarksDialog.SaveIdempotent | src/components/edit-invoice-remarks-dialog.tsx:25-34 | saving the saved remarks again changes nothing |
| CostSetForm.WithField | src/components/add-utility-cost-dialog.tsx:76 | `{ ...sc, [field]: value }` sets the field and keeps the other |
| CostSetForm.Added | src/components/add-utility-cost-dialog.tsx:54-59 | an empty row is appended and the old rows are kept |
| CostSetForm.RemovedIsSlice | src/components/add-utility-cost-dialog.tsx:61-66 | removing drops exactly the row at the index and keeps the others in order; an index outside the list changes nothing |
| CostSetForm.UpdatedRows | src/components/add-utility-cost-dialog.tsx:68-79 | the row at the index gets the field, every other row is unchanged, and the length is kept |
| CostSetForm.UpdateChangesOneInput | src/components/add-utility-cost-dialog.tsx:68-79 | an update changes exactly one input of one row |
| CostSetForm.ServiceCostsOf | src/components/add-utility-cost-dialog.tsx:45-48 | each row becomes a service cost with its name and its parsed fee |
| CostSetForm.RowsOf | src/components/edit-utility-cost-dialog.tsx:37-42 | each service cost becomes a row with its name and its rendered fee |
| CostSetForm.RowsRoundTrip | src/components/edit-utility-cost-dialog.tsx:37-70 | when parsing undoes rendering, the rows read back as the same service costs |
| CostSetForm.AddedSaves | src/components/add-utility-cost-dialog.tsx:45-59 | an added row saves as a service cost with an empty name and the fee of the empty text |
| CostSetForm.RemovedSaves | src/components/add-utility-cost-dialog.tsx:45-66 | removing a row removes exactly its service cost |
| CostSetForm.Submitted | src/components/add-utility-cost-dialog.tsx:41-49 | the saved fields: the name, the two parsed prices and the parsed service costs, in order |
| CostSetForm.SaveUnedited | src/components/edit-utility-cost-dialog.tsx:32-73 | saving the edit dialog without a change gives the cost set's own fields back, when parsing undoes rendering |
| CostSetForm.AsCostSet | src/components/add-utility-cost-dialog.tsx:41-49 | the new cost set carries exactly the submitted fields and no legacy garbage cost |
| AddUtilityCostDialog.SubmittedFee | src/components/add-utility-cost-dialog.tsx:41-49 | a set made here has no garbage-cost field, though it carries its fees as service costs (see Findings) |
| AddUtilityCostDialog.SubmitEmptyForm | src/components/add-utility-cost-dialog.tsx:25-49 | submitting the blank form gives an empty name, the parsed empty prices and no service cost |
| AddUtilityCostDialog.Dialog.constructor | src/components/add-utility-cost-dialog.tsx:37 | the form starts blank |
| AddUtilityCostDialog.Dialog.AddServiceCost | src/components/add-utility-cost-dialog.tsx:54-59 | a row is added and the other fields are kept |
| AddUtilityCostDialog.Dialog.RemoveServiceCost | src/components/add-utility-cost-dialog.tsx:61-66 | the row at the index is removed, and the rest are kept in order |
| AddUtilityCostDialog.Dialog.UpdateServiceCost | src/components/add-utility-cost-dialog.tsx:68-79 | the row at the index is updated |
| AddUtilityCostDialog.Dialog.HandleSubmit | src/components/add-utility-cost-dialog.tsx:39-52 | the submitted fields of the form, and then the form is blank again |
| EditUtilityCostDialog.Dialog.constructor | src/components/edit-utility-cost-dialog.tsx:32-42 | the form shows the cost set, with its numbers rendered as text |
| EditUtilityCostDialog.Dialog.AddServiceCost | src/components/edit-utility-cost-dialog.tsx:44-46 | a row is added |
| EditUtilityCostDialog.Dialog.RemoveServiceCost | src/components/edit-utility-cost-dialog.tsx:48-50 | the row at the index is removed |
| EditUtilityCostDialog.Dialog.UpdateServiceCost | src/components/edit-utility-cost-dialog.tsx:52-60 | the row at the index is updated |
| EditUtilityCostDialog.Dialog.HandleSave | src/components/edit-utility-cost-dialog.tsx:62-73 | the submitted fields of the form |
| UtilityCostDialog.Dialog.constructor | src/components/utility-cost-dialog.tsx:19-20 | the local prices start as the store's |
| UtilityCostDialog.Dialog.HandlePriceChange | src/components/utility-cost-dialog.tsx:22-28 | every local entry of the type takes the price |
| UtilityCostDialog.Dialog.HandleConfirm | src/components/utility-cost-dialog.tsx:30-33 | the store takes the local prices with missing defaults appended, so every type is priced as in the dialog |

## Left out

- jsPDF itself (fonts, `text`/`rect` drawing, `addPage`, `output`): the generators return placement records (page, position, text or box) instead of drawing, since the library is a foreign call.
- Date handling (`toLocaleDateString`, date-fns `format`, `Date.parse`, `toISOString`, `new Date()`): the formatted strings, the "dd/MM/yyyy" key of `updatedAt`, the parse check and the current time are parameters, because they are locale and clock libraries.
- Locale collation: `localeCompare` and `Object.keys(...).sort()` are modelled as code-point order on strings (`Text.Compare`), since a Dafny `char` is a Unicode scalar value; JavaScript's default sort compares UTF-16 code units, which orders a character above U+FFFF below one in U+E000–U+FFFF, and `localeCompare` follows the locale. For the single-letter ASCII block names in use all three give the same order.
- Floating point: prices and amounts are exact `real`, so IEEE rounding artefacts (for example in `Math.ceil(usage * 0.1)`) are not modelled.
- `Number()` / `parseFloat` and `toString` on numbers: a parse function `string -> real` and a render function `real -> string` are parameters; `NaN` is not modelled.
- CalculationStage.UpdateFor, CalculationStage.Stage.HandleInputChange: meter readings are `int`, so a fractional reading typed into the calculation stage (`Number(e.target.value)`) is stored cut to its floor, where the source keeps the fraction; the typed room price is a `real` and is kept as typed. `CalculationStage.EditChangesOneField` and `CalculationStage.ValidatedFlagsIff` are stated for whole readings.
- A date-key piece that is not all digits reads as 0 rather than `NaN`; with `NaN` the source's comparator is inconsistent.
- Browser I/O: Blob and anchor downloads, `file.text()`, `JSON.parse`/`JSON.stringify`, `sessionStorage` and zustand `persist` are left out; JSON is modelled as a value type, and `console.error` and `alert` become returned outcomes.
- Cloud storage (`src/lib/cloud-storage.ts`, `src/store/cloud-store.ts`, `src/components/cloud-input.tsx`) is not part of this model; `App.App.HandleSaveCalculations` only reports whether a cloud save follows.
- React rendering, the toolbar, the calendar and data-table wrappers and all JSX: only the named handlers and memo computations are modelled, and the toolbar's show/hide conditions follow from the mode flags.
- The export file name and its download are left out; `exportToJson` is modelled up to the validated record.
- `migrateInvoiceSettings` is not part of this model: `Export.ImportFromJson` takes it as a parameter.
- `src/store/utility-costs.ts` as it stands has no `costSets` or `importCostSets`, which the printing stage and the import call; `UtilityCostsStore.CostSetsStore` holds just the list those calls need.
- The text-field setters of the cost dialogs (name, electricity and water price) are plain field assignments and are not modelled separately.
- Text.Upper, Text.Lower: case mapping covers the ASCII letters only, whereas JavaScript's `toUpperCase`/`toLowerCase` map every Unicode letter (and `ß` to two letters); so `RoomDialog.TypedName`, the duplicate-name check of `RoomDialog.NameError` and `RoomDialog.Submit`, and `RoomTable.FuzzyFilter` agree with the source on ASCII text only. Room names accepted by the parser are ASCII, and `Text.Trim` removes the same white space as JavaScript's `trim`.
- Export.AsRoom, Export.AsRooms, Export.ImportFromJson: an imported room record is read into a `Room` field by field, a missing or wrongly typed field reading as the empty string or 0 and a fractional number floored; the source stores `importedData.rooms || []` as it is (src/utils/export.ts:79). The validator lets a missing or falsy field through (`Export.FalsyFieldsAccepted`), so where the source keeps `undefined`, `null`, `false` or `""` in such a field the model holds "" or 0; fractional numbers and extra fields are not kept either.
- RoomTable.AsRoom, RoomTable.Table.HandleSave: the cast gives a room only for a patch carrying every field, and a new room is added only then; the source casts an incomplete patch with `as Room` and appends it. `RoomTable.NewRoomSavesComplete` shows that the add form always yields a complete patch.

## Findings

| source | as written | input that shows it | evidently intended | confidence | as-written member | corrected member |
|---|---|---|---|---|---|---|
| src/components/printing-stage.tsx:124 | the PDFs take the garbage fee from the legacy `garbageCost` field, which neither migrated sets nor sets made in the add dialog carry, so the fee is `undefined`: the invoice totals become `NaN`, and the total sheet throws where it calls `toString` on the fee (src/lib/pdf-generator.ts:176) | a migrated set whose `serviceCosts` is `[{name: "Rác", fee: g}]` and which has no `garbageCost` | the fee is the sum of the set's service costs; the legacy field is used only for a set that has no service costs | not executed | PrintingStage.GarbageFeeAsWritten | PrintingStage.GarbageFee |
| src/components/calculation-stage.tsx:58-79 | `validateInput` deletes only the error named after the edited field, so an edit of `currentElectric` never clears a `newElectric` error (water likewise) | room A1 with current reading 100, new reading 90 and a `newElectric` error; the current reading is edited to 80 and the error stays | after an edit of either reading, the error is present exactly when the new reading is below the current one | not executed | CalculationStage.ValidatedAsWritten | CalculationStage.Validated |
