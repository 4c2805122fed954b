/** `src/utils/migrate.ts`: upgrading a cost set written before service
    costs existed. The function takes any parsed value, so it is modelled on
    JSON values. Reading a property of `null` throws, which the callers rule
    out (the import validator rejects `null` cost sets first). */
module Migrate {
  import opened Wrappers
  import opened JsonValue

  const LegacyServiceName: string := "Rác"

  /** `data.garbageCost !== undefined && !data.serviceCosts`. A present
      `garbageCost` counts even when it is `null`. */
  predicate IsLegacy(j: Json) {
    Get(j, "garbageCost").Some? && !TruthyOpt(Get(j, "serviceCosts"))
  }

  /** The one service cost a legacy garbage fee becomes. */
  function LegacyServiceCosts(fee: Json): Json {
    JArr([JObj(map["name" := JStr(LegacyServiceName), "fee" := fee])])
  }

  /** `migrateUtilityCostSet`. */
  function MigrateUtilityCostSet(j: Json): (r: Json)
    requires !j.JNull?
    ensures IsLegacy(j) ==> r.JObj? && "garbageCost" !in r.fields
                            && Get(r, "serviceCosts") == Some(LegacyServiceCosts(j.fields["garbageCost"]))
    ensures !IsLegacy(j) ==> r == j
    ensures forall k :: k != "garbageCost" && k != "serviceCosts" ==> Get(r, k) == Get(j, k)
    ensures !IsLegacy(r)
  {
    if IsLegacy(j) then
      JObj((j.fields - {"garbageCost"})["serviceCosts" := LegacyServiceCosts(j.fields["garbageCost"])])
    else j
  }

  /** Safe to call on already-migrated data. */
  lemma MigrateIdempotent(j: Json)
    requires !j.JNull?
    ensures MigrateUtilityCostSet(MigrateUtilityCostSet(j)) == MigrateUtilityCostSet(j)
  {
  }

  /** A record that already has service costs, even none (`[]` is truthy),
      is left as it is, a stale `garbageCost` included. */
  lemma ServiceCostsArrayWins(j: Json)
    requires j.JObj? && "serviceCosts" in j.fields && j.fields["serviceCosts"].JArr?
    ensures MigrateUtilityCostSet(j) == j
  {
  }
}
