/**
 * Facts about the shape of the sensor catalog that are stated in terms of
 * its categories rather than its positions.
 */
module CatalogFacts {
  import opened Wrappers
  import opened SensorDescription
  import opened SensorCatalog

  /** Every descriptor of `CATEGORY_SENSORS` carries the category it is listed under. */
  lemma CategoriesConsistent()
    ensures forall c, j :: 0 <= c < |CategorySensors| && 0 <= j < |CategorySensors[c].1| ==>
      CategorySensors[c].1[j].category == CategorySensors[c].0
  {
    CatalogWellFormed();
    FlattenWellFormed(CategorySensors, 0, 161);
  }

  /** `ALL_SENSORS` starts with the health descriptors. */
  lemma AllSensorsStartWithHealth()
    ensures AllSensors() == HealthSensors + Flatten(CategorySensors[1..])
  {
    assert CategorySensors[0].1 == HealthSensors;
  }

  lemma UptimeDescriptors()
    ensures |HealthSensors| > 13
    ensures HealthSensors[12] == Descriptor("uptime_sec", "health", "health.uptime_sec", None)
    ensures HealthSensors[13] == Descriptor("uptime_formatted", "health", "health.uptime_sec", Some(UptimeFormatted))
  {
  }

  /** `uptime_sec` and `uptime_formatted` read the same path, so there are fewer paths than descriptors. */
  lemma SharedAttributePath()
    ensures AllSensors()[12].key == "uptime_sec" && AllSensors()[13].key == "uptime_formatted"
    ensures AllSensors()[12].attrPath == AllSensors()[13].attrPath
  {
    AllSensorsStartWithHealth();
    UptimeDescriptors();
    var all := AllSensors();
    assert all[12] == HealthSensors[12] && all[13] == HealthSensors[13];
  }
}
