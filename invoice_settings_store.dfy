/** `src/store/invoice-settings.ts`: the remarks printed under invoices.
    The settings are kept as the JSON value they are stored and imported as,
    since `importSettings` accepts whatever an imported file holds. */
module InvoiceSettingsStore {
  import opened Wrappers
  import opened JsonValue

  const DefaultInvoiceRemarks: seq<string> :=
    ["Trả phòng vui lòng báo trước 1 tháng.", "Nếu không báo, nhà trọ không hoàn cọc."]

  function StringArray(xs: seq<string>): (j: Json)
    ensures j.JArr? && |j.items| == |xs|
    ensures forall i :: 0 <= i < |xs| ==> j.items[i] == JStr(xs[i])
  {
    JArr(seq(|xs|, i requires 0 <= i < |xs| => JStr(xs[i])))
  }

  /** `{ remarks }`. */
  function SettingsOf(remarks: seq<string>): Json {
    JObj(map["remarks" := StringArray(remarks)])
  }

  /** The strings of a JSON array of strings. */
  function Strings(items: seq<Json>): seq<string> {
    if items == [] then []
    else (if items[0].JStr? then [items[0].s] else []) + Strings(items[1..])
  }

  /** Reading back the remarks of `{ remarks }` gives them unchanged. */
  lemma {:induction false} StringsOfStringArray(xs: seq<string>)
    ensures Strings(StringArray(xs).items) == xs
  {
    if xs != [] {
      StringsOfStringArray(xs[1..]);
      assert StringArray(xs).items[1..] == StringArray(xs[1..]).items;
    }
  }

  /** `settings && Array.isArray(settings.remarks)`. */
  predicate HasRemarksArray(s: Json) {
    Truthy(s) && Get(s, "remarks").Some? && Get(s, "remarks").value.JArr?
  }

  predicate Importable(s: Option<Json>) {
    s.Some? && HasRemarksArray(s.value)
  }

  /** What `importSettings(s)` stores. */
  function Imported(s: Option<Json>): (r: Json)
    ensures HasRemarksArray(r)
    ensures Importable(s) ==> r == s.value
    ensures !Importable(s) ==> r == SettingsOf(DefaultInvoiceRemarks)
  {
    if Importable(s) then s.value else SettingsOf(DefaultInvoiceRemarks)
  }

  /** Importing what the store holds keeps it. */
  lemma ImportIdempotent(s: Option<Json>)
    ensures Imported(Some(Imported(s))) == Imported(s)
  {
  }

  class Store {
    var settings: Json

    /** Every settings value the store holds has a `remarks` array. */
    predicate Valid()
      reads this
    {
      HasRemarksArray(settings)
    }

    constructor()
      ensures settings == SettingsOf(DefaultInvoiceRemarks)
      ensures Valid()
    {
      settings := SettingsOf(DefaultInvoiceRemarks);
    }

    /** `setRemarks`: the settings become exactly `{ remarks }`. */
    method SetRemarks(remarks: seq<string>)
      modifies this
      ensures settings == SettingsOf(remarks)
      ensures Valid()
    {
      settings := SettingsOf(remarks);
    }

    /** `importSettings`: keep a value with a `remarks` array, otherwise
        fall back to the defaults. */
    method ImportSettings(s: Option<Json>)
      modifies this
      ensures settings == Imported(s)
      ensures Valid()
    {
      if s.Some? && Truthy(s.value) && Get(s.value, "remarks").Some? && Get(s.value, "remarks").value.JArr? {
        settings := s.value;
      } else {
        settings := SettingsOf(DefaultInvoiceRemarks);
      }
    }
  }
}
