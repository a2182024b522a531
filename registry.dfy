/**
 * The object registry of a scan: detections delivered by the scan callback become
 * provisional records, and finishing the scan turns them into a catalog indexed 1..n.
 */
module Registry {
  import opened Wrappers
  import opened Zones

  /** One detection report of the scan service: every field may be missing. */
  datatype Detection = Detection(
    cls: Option<string>,
    angle: Option<int>,
    distance: Option<int>,
    confidence: Option<real>,
    imagePath: Option<string>)

  /** A provisional record, as `_update_object_registry` appends it. */
  datatype Record = Record(angle: int, distance: int, cls: string, confidence: real, image: string, zone: Zone)

  /** A catalog entry, as `process_scan_results` builds it. */
  datatype ScannedObject = ScannedObject(index: int, centerAngle: int, distance: int, cls: string, confidence: real, zone: Zone)

  /** The callback's test `if data.get('class')`: a class is present and not empty. */
  predicate HasClass(d: Detection)
  {
    d.cls.Some? && d.cls.value != ""
  }

  /** A record whose zone is the lookup of its own class. */
  predicate WellFormed(r: Record)
  {
    r.zone == ZoneFor(r.cls)
  }

  /** The record `_update_object_registry` builds from one detection. */
  function RecordOf(d: Detection): (r: Record)
    ensures WellFormed(r)
    ensures d.cls.Some? ==> r.cls == d.cls.value
    ensures d.cls.None? ==> r.cls == "default"
    ensures d.angle.Some? ==> r.angle == d.angle.value
    ensures d.angle.None? ==> r.angle == 0
    ensures d.distance.Some? ==> r.distance == d.distance.value
    ensures d.distance.None? ==> r.distance == 0
    ensures d.confidence.Some? ==> r.confidence == d.confidence.value
    ensures d.confidence.None? ==> r.confidence == 0.0
    ensures d.imagePath.Some? ==> r.image == d.imagePath.value
    ensures d.imagePath.None? ==> r.image == ""
  {
    var cls := GetOr(d.cls, "default");
    Record(GetOr(d.angle, 0), GetOr(d.distance, 0), cls, GetOr(d.confidence, 0.0), GetOr(d.imagePath, ""), ZoneFor(cls))
  }

  /** The registry after the scan callback has seen one more detection. */
  function AfterCallback(rs: seq<Record>, d: Detection): seq<Record>
  {
    if HasClass(d) then rs + [RecordOf(d)] else rs
  }

  /** The registry after the callback has seen `ds`, one at a time, starting empty. */
  function Records(ds: seq<Detection>): (rs: seq<Record>)
    ensures |rs| <= |ds|
    ensures forall i :: 0 <= i < |rs| ==> WellFormed(rs[i]) && rs[i].cls != ""
  {
    if ds == [] then [] else AfterCallback(Records(ds[..|ds| - 1]), ds[|ds| - 1])
  }

  /** Reference definition: the detections that carry a class, in arrival order. */
  function Classified(ds: seq<Detection>): (cs: seq<Detection>)
    ensures |cs| <= |ds|
    ensures forall i :: 0 <= i < |cs| ==> HasClass(cs[i])
    ensures forall d :: d in cs <==> d in ds && HasClass(d)
  {
    if ds == [] then []
    else if HasClass(ds[0]) then [ds[0]] + Classified(ds[1..])
    else Classified(ds[1..])
  }

  lemma {:induction false} ClassifiedAppend(ds: seq<Detection>, d: Detection)
    ensures Classified(ds + [d]) == Classified(ds) + (if HasClass(d) then [d] else [])
  {
    if ds == [] {
      assert ds + [d] == [d];
    } else {
      assert (ds + [d])[1..] == ds[1..] + [d];
      ClassifiedAppend(ds[1..], d);
    }
  }

  /**
   * The registry holds exactly one record per detection that carries a class,
   * in arrival order; detections without a class leave no trace.
   */
  lemma {:induction false} RecordsAreClassified(ds: seq<Detection>)
    ensures |Records(ds)| == |Classified(ds)|
    ensures forall i :: 0 <= i < |Records(ds)| ==> Records(ds)[i] == RecordOf(Classified(ds)[i])
  {
    if ds != [] {
      var front, last := ds[..|ds| - 1], ds[|ds| - 1];
      assert ds == front + [last];
      RecordsAreClassified(front);
      ClassifiedAppend(front, last);
    }
  }

  /** A detection without a class changes nothing; any other adds one record at the end. */
  lemma RecordsAfterOneMore(ds: seq<Detection>, d: Detection)
    ensures !HasClass(d) ==> Records(ds + [d]) == Records(ds)
    ensures HasClass(d) ==> Records(ds + [d]) == Records(ds) + [RecordOf(d)]
  {
    assert (ds + [d])[..|ds|] == ds;
  }

  /** The catalog entry made of the record that arrived `index`-th. */
  function Catalogued(r: Record, index: int): ScannedObject
  {
    ScannedObject(index, r.angle, r.distance, r.cls, r.confidence, r.zone)
  }

  /**
   * `process_scan_results`: the catalog numbers the records 1..n in arrival order and
   * carries each one's position, class, confidence and zone.
   */
  function Catalog(rs: seq<Record>): (c: seq<ScannedObject>)
    ensures |c| == |rs|
    ensures forall i :: 0 <= i < |rs| ==>
      && c[i].index == i + 1
      && c[i].centerAngle == rs[i].angle
      && c[i].distance == rs[i].distance
      && c[i].cls == rs[i].cls
      && c[i].confidence == rs[i].confidence
      && c[i].zone == rs[i].zone
  {
    if rs == [] then [] else Catalog(rs[..|rs| - 1]) + [Catalogued(rs[|rs| - 1], |rs|)]
  }

  /** Indices are distinct, so an index names at most one catalog entry. */
  lemma CatalogIndexNamesOneEntry(rs: seq<Record>, i: int, j: int)
    requires 0 <= i < |rs| && 0 <= j < |rs|
    requires Catalog(rs)[i].index == Catalog(rs)[j].index
    ensures i == j
  {
  }

  /**
   * The whole scan: the catalog has one entry per classified detection, numbered 1..n,
   * each with the zone of its class.
   */
  lemma CatalogOfScan(ds: seq<Detection>)
    ensures |Catalog(Records(ds))| == |Classified(ds)|
    ensures forall i :: 0 <= i < |Classified(ds)| ==>
      && Catalog(Records(ds))[i] == Catalogued(RecordOf(Classified(ds)[i]), i + 1)
      && Catalog(Records(ds))[i].index == i + 1
      && Catalog(Records(ds))[i].cls == Classified(ds)[i].cls.value
      && Catalog(Records(ds))[i].zone == ZoneFor(Classified(ds)[i].cls.value)
  {
    RecordsAreClassified(ds);
  }

  /**
   * Two detections, an apple at 10 degrees and 100 mm and an unknown class at 20 degrees
   * and 150 mm: the catalog has two entries, the apple in the apple zone, the other in the
   * default zone.
   */
  lemma TwoObjectScan()
    ensures var ds := [
        Detection(Some("apple"), Some(10), Some(100), Some(0.9), Some("a.jpg")),
        Detection(Some("cup"), Some(20), Some(150), Some(0.8), Some("b.jpg"))];
      var c := Catalog(Records(ds));
      && |c| == 2
      && c[0].index == 1 && c[0].zone == Zone(90, 200)
      && c[1].index == 2 && c[1].zone == DefaultZone
  {
    AppleZoneIgnoresCase();
    UnmappedClassGetsDefault();
    var ds := [
        Detection(Some("apple"), Some(10), Some(100), Some(0.9), Some("a.jpg")),
        Detection(Some("cup"), Some(20), Some(150), Some(0.8), Some("b.jpg"))];
    assert ds[..1][..0] == [];
    assert ds[..1] == [ds[0]];
    assert Records(ds[..1]) == [RecordOf(ds[0])];
    assert Records(ds) == [RecordOf(ds[0]), RecordOf(ds[1])];
  }
}
