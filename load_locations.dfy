/** Turning the location table's records into locations and dropping the unnamed ones. */
module LoadLocations {
  import opened Wrappers
  import opened JsString
  import opened JsArray

  /** A delivery location: its record id, its name and the ids of the price rules linked to it. */
  datatype Location = Location(id: string, name: string, pricingRules: seq<string>)

  /** A location-table record: its id, the 地点名 name cell and the 计价规则 linked rules cell. */
  datatype LocationRecord = LocationRecord(id: string, nameCell: Option<string>, rulesCell: Option<seq<string>>)

  /** The placeholder name a record without a name gets. */
  const Unnamed: string := "未命名地点"

  /** The mapping from a record to a location: a missing or empty name becomes the placeholder, missing rules an empty list. */
  function ToLocation(rec: LocationRecord): (loc: Location)
    ensures loc.id == rec.id
    ensures loc.name != ""
    ensures NonEmpty(rec.nameCell) ==> loc.name == rec.nameCell.value
    ensures !NonEmpty(rec.nameCell) ==> loc.name == Unnamed
    ensures rec.rulesCell.Some? ==> loc.pricingRules == rec.rulesCell.value
    ensures rec.rulesCell.None? ==> loc.pricingRules == []
  {
    Location(rec.id,
             if NonEmpty(rec.nameCell) then rec.nameCell.value else Unnamed,
             if rec.rulesCell.Some? then rec.rulesCell.value else [])
  }

  /** A location is kept when it has a name other than the placeholder. */
  predicate IsValidLocation(loc: Location) {
    loc.name != "" && loc.name != Unnamed
  }

  /** `getLocations` after fetching: map every record, keep the named locations in order. */
  function LoadLocations(records: seq<LocationRecord>): (locs: seq<Location>)
    ensures |locs| <= |records|
    ensures forall l :: l in locs ==> IsValidLocation(l)
  {
    Filter(Map(records, ToLocation), IsValidLocation)
  }

  /** Loading keeps the records' order: the locations of a concatenation are those of each part, in turn. */
  lemma LoadLocationsConcat(a: seq<LocationRecord>, b: seq<LocationRecord>)
    ensures LoadLocations(a + b) == LoadLocations(a) + LoadLocations(b)
  {
    MapConcat(a, b, ToLocation);
    FilterConcat(Map(a, ToLocation), Map(b, ToLocation), IsValidLocation);
  }

  /** One record gives its location when the location is named, and nothing otherwise. */
  lemma LoadLocationsSingle(rec: LocationRecord)
    ensures LoadLocations([rec]) == if IsValidLocation(ToLocation(rec)) then [ToLocation(rec)] else []
  {
    assert Map([rec], ToLocation) == [ToLocation(rec)];
    assert [ToLocation(rec)][1..] == [];
  }

  /**
   * A record yields a location exactly when its name cell is non-empty and
   * is not the placeholder text itself.
   */
  lemma LoadLocationsKeeps(records: seq<LocationRecord>, i: nat)
    requires i < |records|
    ensures ToLocation(records[i]) in LoadLocations(records) <==>
              NonEmpty(records[i].nameCell) && records[i].nameCell.value != Unnamed
  {
    var m := Map(records, ToLocation);
    assert m[i] == ToLocation(records[i]);
  }

  /** Every kept location comes from some record whose name cell it carries. */
  lemma LoadLocationsFromRecords(records: seq<LocationRecord>)
    ensures forall l :: l in LoadLocations(records) ==>
              exists i :: 0 <= i < |records| && ToLocation(records[i]) == l && records[i].nameCell == Some(l.name)
  {
    forall l | l in LoadLocations(records)
      ensures exists i :: 0 <= i < |records| && ToLocation(records[i]) == l && records[i].nameCell == Some(l.name)
    {
      var m := Map(records, ToLocation);
      var i :| 0 <= i < |m| && m[i] == l;
      assert ToLocation(records[i]) == l;
    }
  }
}
