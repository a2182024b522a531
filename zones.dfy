/** The placement table of the robot and the case-insensitive lookup into it. */
module Zones {
  /** Where an object of some class is put down: a base angle and an arm distance. */
  datatype Zone = Zone(angle: int, distance: int)

  const DefaultZone: Zone := Zone(270, 200)

  /** The classes that have a zone of their own. */
  const KnownClasses: set<string> := {"apple", "orange", "bottle"}

  /** The robot's `placement_zones` table, keyed by lower-case class name. */
  const PlacementZones: map<string, Zone> := map[
    "apple" := Zone(90, 200),
    "orange" := Zone(180, 200),
    "bottle" := Zone(45, 200),
    "default" := DefaultZone
  ]

  /** Lower-cases one character (ASCII letters only). */
  function LowerChar(c: char): char
  {
    if 'A' <= c <= 'Z' then (c as int + 32) as char else c
  }

  /** `str.lower()`, character by character. */
  function Lower(s: string): (r: string)
    ensures |r| == |s|
    ensures forall i :: 0 <= i < |s| ==> r[i] == LowerChar(s[i])
  {
    if s == [] then [] else [LowerChar(s[0])] + Lower(s[1..])
  }

  /** `s` and `t` spell the same word up to the case of their letters. */
  predicate SameIgnoringCase(s: string, t: string)
  {
    |s| == |t| && forall i :: 0 <= i < |s| ==> LowerChar(s[i]) == LowerChar(t[i])
  }

  /** `_get_placement_zones`: the zone of the lower-cased class, else the default zone. */
  function ZoneFor(cls: string): (z: Zone)
    ensures z in PlacementZones.Values
    ensures Lower(cls) in KnownClasses ==> z == PlacementZones[Lower(cls)]
    ensures Lower(cls) !in KnownClasses ==> z == DefaultZone
  {
    var key := Lower(cls);
    if key in PlacementZones then PlacementZones[key] else PlacementZones["default"]
  }

  lemma LowerIdempotent(s: string)
    ensures Lower(Lower(s)) == Lower(s)
  {
    assert forall i :: 0 <= i < |s| ==> Lower(Lower(s))[i] == Lower(s)[i];
  }

  /** Words that differ only in case have the same lower-case form. */
  lemma LowerOfSameIgnoringCase(s: string, t: string)
    requires SameIgnoringCase(s, t)
    ensures Lower(s) == Lower(t)
  {
    assert forall i :: 0 <= i < |s| ==> Lower(s)[i] == Lower(t)[i];
  }

  /** The lookup ignores case: any re-casing of a class gets the same zone. */
  lemma ZoneForIgnoresCase(s: string, t: string)
    requires SameIgnoringCase(s, t)
    ensures ZoneFor(s) == ZoneFor(t)
  {
    LowerOfSameIgnoringCase(s, t);
  }

  /** Looking up an already lower-cased class changes nothing. */
  lemma ZoneForOfLower(s: string)
    ensures ZoneFor(Lower(s)) == ZoneFor(s)
  {
    LowerIdempotent(s);
  }

  /** The default zone is given exactly to the classes without a zone of their own. */
  lemma ZoneForIsDefaultIff(s: string)
    ensures ZoneFor(s) == DefaultZone <==> Lower(s) !in KnownClasses
  {
  }

  /** "Apple" and "apple" share the apple zone. */
  lemma AppleZoneIgnoresCase()
    ensures ZoneFor("Apple") == ZoneFor("apple") == Zone(90, 200)
  {
    var a := Lower("apple");
    assert a[0] == 'a' && a[1] == 'p' && a[2] == 'p' && a[3] == 'l' && a[4] == 'e';
    assert a == "apple";
    assert SameIgnoringCase("Apple", "apple");
    ZoneForIgnoresCase("Apple", "apple");
  }

  /** An unmapped class such as "cup" gets the default zone, and so does the empty class. */
  lemma UnmappedClassGetsDefault()
    ensures ZoneFor("cup") == DefaultZone && ZoneFor("") == DefaultZone
  {
    var c := Lower("cup");
    assert c[0] == 'c';
    assert c !in KnownClasses;
  }
}
