/**
 * The UK "envelope" address of a feature's popup: the lines `_getPoiPopupHTML` writes into its
 * table, from the feature's `addr:*` tags. The table and the surrounding card are not modelled.
 *
 * `upper` stands for JavaScript's `toUpperCase`, which this model leaves uninterpreted.
 *
 * `_getPoiPopupHTML` assigns and reads `addrsubstreet` without declaring it; here it is a local that
 * starts out absent, like the other optional parts.
 */
module Envelope {
  import opened Wrappers

  const UnitKey: string := "addr:unit"
  const NameKey: string := "addr:housename"
  const NumberKey: string := "addr:housenumber"
  const PlaceKey: string := "addr:place"
  const SubstreetKey: string := "addr:substreet"
  const StreetKey: string := "addr:street"
  const ParentKey: string := "addr:parentstreet"
  const SuburbKey: string := "addr:suburb"
  const CityKey: string := "addr:city"
  const PostcodeKey: string := "addr:postcode"

  /** The tags the formatter reads; every other tag is ignored. */
  const AddressKeys: set<string> :=
    {UnitKey, NameKey, NumberKey, PlaceKey, SubstreetKey, StreetKey, ParentKey, SuburbKey, CityKey, PostcodeKey}

  const TownDefault: string := "[TOWN/CITY]"
  const PostcodeDefault: string := "[Postcode]"

  /** The formatter's locals once the tags have been read. */
  datatype Parts = Parts(
    unit: Option<string>, name: Option<string>, number: Option<string>, place: Option<string>,
    substreet: Option<string>, street: Option<string>, parent: Option<string>, suburb: Option<string>,
    city: string, postcode: string)

  function Get(tags: map<string, string>, key: string): Option<string> {
    if key in tags then Some(tags[key]) else None
  }

  /** What the loop over the tags leaves in the locals. */
  function ReadTags(tags: map<string, string>, upper: string -> string): Parts {
    Parts(Get(tags, UnitKey), Get(tags, NameKey), Get(tags, NumberKey), Get(tags, PlaceKey),
          Get(tags, SubstreetKey), Get(tags, StreetKey), Get(tags, ParentKey), Get(tags, SuburbKey),
          if CityKey in tags then upper(tags[CityKey]) else TownDefault,
          if PostcodeKey in tags then tags[PostcodeKey] else PostcodeDefault)
  }

  /** The pre-processing step: a place different from the substreet is put in front of it. */
  function FoldPlace(p: Parts): Parts {
    if p.place.Some? && p.place != p.substreet then
      p.(substreet := Some(if p.substreet.Some? then p.place.value + " " + p.substreet.value else p.place.value))
    else p
  }

  /** A line written only when its part is present, with the comma. */
  function Line(part: Option<string>): seq<string> {
    if part.Some? then [part.value + ","] else []
  }

  /** The unit / house-name line. */
  function FirstLine(p: Parts): seq<string> {
    if p.unit.Some? && p.name.Some? then [p.unit.value + " " + p.name.value + ","]
    else if p.name.Some? then [p.name.value + ","]
    else Line(p.unit)
  }

  /** The house number with the substreet, or failing that the street. */
  function StreetLine(p: Parts): seq<string> {
    var street := if p.substreet.Some? then p.substreet else p.street;
    if street.Some? && p.number.Some? then [p.number.value + " " + street.value + ","]
    else Line(street)
  }

  function Lines(p: Parts): seq<string> {
    FirstLine(p) + StreetLine(p) + Line(p.parent) + Line(p.suburb) + [p.city] + [p.postcode]
  }

  /** The envelope lines for a tag map. */
  function Envelope(tags: map<string, string>, upper: string -> string): seq<string> {
    Lines(FoldPlace(ReadTags(tags, upper)))
  }

  /** The value of `key` once the loop has visited every key outside `todo`. */
  function Seen(tags: map<string, string>, todo: set<string>, key: string): Option<string> {
    if key in tags && key !in todo then Some(tags[key]) else None
  }

  /** Visiting `key` brings its value into view and leaves every other key as it was. */
  lemma {:induction false} SeenStep(tags: map<string, string>, todo: set<string>, key: string)
    requires key in todo && todo <= tags.Keys
    ensures forall k :: Seen(tags, todo - {key}, k) == if k == key then Some(tags[key]) else Seen(tags, todo, k)
  {
  }

  /** The loop of `_getPoiPopupHTML` over the feature's tags, filling in the locals. */
  method ReadTagValues(tags: map<string, string>, upper: string -> string) returns (p: Parts)
    ensures p == ReadTags(tags, upper)
  {
    var unit, name, number, place, substreet, street, parent, suburb: Option<string>;
    unit, name, number, place, substreet, street, parent, suburb := None, None, None, None, None, None, None, None;
    var city, postcode := TownDefault, PostcodeDefault;
    var todo := tags.Keys;
    while todo != {}
      invariant todo <= tags.Keys
      invariant unit == Seen(tags, todo, UnitKey) && name == Seen(tags, todo, NameKey)
      invariant number == Seen(tags, todo, NumberKey) && place == Seen(tags, todo, PlaceKey)
      invariant substreet == Seen(tags, todo, SubstreetKey) && street == Seen(tags, todo, StreetKey)
      invariant parent == Seen(tags, todo, ParentKey) && suburb == Seen(tags, todo, SuburbKey)
      invariant city == if Seen(tags, todo, CityKey).Some? then upper(tags[CityKey]) else TownDefault
      invariant postcode == if Seen(tags, todo, PostcodeKey).Some? then tags[PostcodeKey] else PostcodeDefault
      decreases todo
    {
      var key :| key in todo;
      SeenStep(tags, todo, key);
      if key == UnitKey {
        unit := Some(tags[key]);
      } else if key == NameKey {
        name := Some(tags[key]);
      } else if key == NumberKey {
        number := Some(tags[key]);
      } else if key == PlaceKey {
        place := Some(tags[key]);
      } else if key == SubstreetKey {
        substreet := Some(tags[key]);
      } else if key == StreetKey {
        street := Some(tags[key]);
      } else if key == ParentKey {
        parent := Some(tags[key]);
      } else if key == SuburbKey {
        suburb := Some(tags[key]);
      } else if key == CityKey {
        city := upper(tags[key]);
      } else if key == PostcodeKey {
        postcode := tags[key];
      }
      todo := todo - {key};
    }
    p := Parts(unit, name, number, place, substreet, street, parent, suburb, city, postcode);
  }

  /** The first half of `_getPoiPopupHTML`'s address logic: the loop over the tags, then the place folded in. */
  method ReadAddress(tags: map<string, string>, upper: string -> string) returns (p: Parts)
    ensures p == FoldPlace(ReadTags(tags, upper))
  {
    p := ReadTagValues(tags, upper);
    if p.place.Some? && p.place != p.substreet {
      if p.substreet.Some? {
        p := p.(substreet := Some(p.place.value + " " + p.substreet.value));
      } else {
        p := p.(substreet := p.place);
      }
    }
  }

  /** The address lines as `_getPoiPopupHTML` computes them for a feature's tags. */
  method FormatEnvelope(tags: map<string, string>, upper: string -> string) returns (lines: seq<string>)
    ensures lines == Envelope(tags, upper)
  {
    var p := ReadAddress(tags, upper);
    lines := WriteRows(p);
  }

  /** The second half: one row per present line, in envelope order, then the city and the postcode. */
  method WriteRows(p: Parts) returns (lines: seq<string>)
    ensures lines == Lines(p)
  {
    var unit, name, number, substreet, street, parent, suburb := p.unit, p.name, p.number, p.substreet, p.street, p.parent, p.suburb;
    lines := [];
    if unit.Some? || name.Some? {
      if unit.Some? && name.Some? {
        lines := lines + [unit.value + " " + name.value + ","];
      } else if name.Some? {
        lines := lines + [name.value + ","];
      } else {
        lines := lines + [unit.value + ","];
      }
    }
    assert lines == FirstLine(p);
    if substreet.Some? {
      if number.Some? {
        lines := lines + [number.value + " " + substreet.value + ","];
      } else {
        lines := lines + [substreet.value + ","];
      }
    } else if street.Some? {
      if number.Some? {
        lines := lines + [number.value + " " + street.value + ","];
      } else {
        lines := lines + [street.value + ","];
      }
    }
    assert lines == FirstLine(p) + StreetLine(p);
    if parent.Some? {
      lines := lines + [parent.value + ","];
    }
    assert lines == FirstLine(p) + StreetLine(p) + Line(parent);
    if suburb.Some? {
      lines := lines + [suburb.value + ","];
    }
    assert lines == FirstLine(p) + StreetLine(p) + Line(parent) + Line(suburb);
    lines := lines + [p.city];
    lines := lines + [p.postcode];
  }

  // ----- properties of the envelope -----

  function Count(present: bool): nat {
    if present then 1 else 0
  }

  predicate EndsWithComma(line: string) {
    line != [] && line[|line| - 1] == ','
  }

  /** The street text line 2 carries, read off the tags: the place and the substreet, or either, or the street. */
  function StreetText(tags: map<string, string>): Option<string> {
    if PlaceKey in tags && SubstreetKey in tags && tags[PlaceKey] != tags[SubstreetKey] then
      Some(tags[PlaceKey] + " " + tags[SubstreetKey])
    else if PlaceKey in tags && SubstreetKey !in tags then Some(tags[PlaceKey])
    else if SubstreetKey in tags then Some(tags[SubstreetKey])
    else if StreetKey in tags then Some(tags[StreetKey])
    else None
  }

  /** The unit/name line comes first, as `unit name,`, `name,` or `unit,`. */
  lemma {:induction false} EnvelopeFirstLine(tags: map<string, string>, upper: string -> string)
    ensures var r := Envelope(tags, upper);
      && (UnitKey in tags && NameKey in tags ==> r[0] == tags[UnitKey] + " " + tags[NameKey] + ",")
      && (UnitKey !in tags && NameKey in tags ==> r[0] == tags[NameKey] + ",")
      && (UnitKey in tags && NameKey !in tags ==> r[0] == tags[UnitKey] + ",")
  {
  }

  /** Where the rows of the table sit once they are written one after the other. */
  lemma {:induction false} RowsAt(first: seq<string>, street: seq<string>, parent: seq<string>, suburb: seq<string>,
                                  city: string, postcode: string)
    ensures var r := first + street + parent + suburb + [city] + [postcode];
      && |r| == |first| + |street| + |parent| + |suburb| + 2
      && (street != [] ==> r[|first|] == street[0])
      && (parent != [] ==> r[|first| + |street|] == parent[0])
      && (suburb != [] ==> r[|first| + |street| + |parent|] == suburb[0])
  {
    var front := first + street + parent + suburb;
    assert first + street + parent + suburb + [city] + [postcode] == front + [city, postcode];
    assert street != [] ==> front[|first|] == street[0];
  }

  /** Where the street, parent-street and suburb lines sit among the lines of any parts. */
  lemma {:induction false} LinesMiddle(p: Parts)
    ensures var r := Lines(p);
      var street := if p.substreet.Some? then p.substreet else p.street;
      var a := Count(p.unit.Some? || p.name.Some?);
      var b := Count(street.Some?);
      var c := Count(p.parent.Some?);
      var d := Count(p.suburb.Some?);
      && |r| == a + b + c + d + 2
      && (street.Some? && p.number.Some? ==> r[a] == p.number.value + " " + street.value + ",")
      && (street.Some? && p.number.None? ==> r[a] == street.value + ",")
      && (p.parent.Some? ==> r[a + b] == p.parent.value + ",")
      && (p.suburb.Some? ==> r[a + b + c] == p.suburb.value + ",")
  {
    RowsAt(FirstLine(p), StreetLine(p), Line(p.parent), Line(p.suburb), p.city, p.postcode);
    assert |FirstLine(p)| == Count(p.unit.Some? || p.name.Some?);
    var street := if p.substreet.Some? then p.substreet else p.street;
    assert |StreetLine(p)| == Count(street.Some?);
  }

  /**
   * The number and street line, then the parent street and the suburb, follow the unit/name line
   * in that order, each only when present.
   */
  lemma {:induction false} EnvelopeMiddleLines(tags: map<string, string>, upper: string -> string)
    ensures var r := Envelope(tags, upper);
      var a := Count(UnitKey in tags || NameKey in tags);
      var b := Count(StreetText(tags).Some?);
      var c := Count(ParentKey in tags);
      var d := Count(SuburbKey in tags);
      && |r| == a + b + c + d + 2
      && (StreetText(tags).Some? && NumberKey in tags ==> r[a] == tags[NumberKey] + " " + StreetText(tags).value + ",")
      && (StreetText(tags).Some? && NumberKey !in tags ==> r[a] == StreetText(tags).value + ",")
      && (ParentKey in tags ==> r[a + b] == tags[ParentKey] + ",")
      && (SuburbKey in tags ==> r[a + b + c] == tags[SuburbKey] + ",")
  {
    var p := FoldPlace(ReadTags(tags, upper));
    LinesMiddle(p);
    FoldedStreet(tags, upper);
    assert p.unit == Get(tags, UnitKey) && p.name == Get(tags, NameKey) && p.number == Get(tags, NumberKey);
    assert p.parent == Get(tags, ParentKey) && p.suburb == Get(tags, SuburbKey);
  }

  /** After the place is folded in, the street text of line 2 is `StreetText`. */
  lemma {:induction false} FoldedStreet(tags: map<string, string>, upper: string -> string)
    ensures var p := FoldPlace(ReadTags(tags, upper));
      (if p.substreet.Some? then p.substreet else p.street) == StreetText(tags)
  {
    var q := ReadTags(tags, upper);
    assert q.place == Get(tags, PlaceKey) && q.substreet == Get(tags, SubstreetKey) && q.street == Get(tags, StreetKey);
  }

  /**
   * The city (upper-cased, or `[TOWN/CITY]`) and the postcode (or `[Postcode]`) are always the
   * last two lines, and every line before them ends with a comma.
   */
  lemma {:induction false} EnvelopeLastLines(tags: map<string, string>, upper: string -> string)
    ensures var r := Envelope(tags, upper);
      && |r| >= 2
      && r[|r| - 2] == (if CityKey in tags then upper(tags[CityKey]) else TownDefault)
      && r[|r| - 1] == (if PostcodeKey in tags then tags[PostcodeKey] else PostcodeDefault)
      && forall k :: 0 <= k < |r| - 2 ==> EndsWithComma(r[k])
  {
    var p := FoldPlace(ReadTags(tags, upper));
    var r := Envelope(tags, upper);
    var x := FirstLine(p) + StreetLine(p);
    var y := x + Line(p.parent);
    var front := y + Line(p.suburb);
    assert r == front + [p.city] + [p.postcode];
    forall k | 0 <= k < |front| ensures EndsWithComma(front[k]) {
      if k < |FirstLine(p)| {
        assert front[k] == FirstLine(p)[k];
      } else if k < |x| {
        assert front[k] == StreetLine(p)[k - |FirstLine(p)|];
      } else if k < |y| {
        assert front[k] == Line(p.parent)[k - |x|];
      } else {
        assert front[k] == Line(p.suburb)[k - |y|];
      }
    }
  }

  /** Tags outside the `addr:*` keys the formatter knows change nothing. */
  lemma {:induction false} EnvelopeIgnoresOtherTags(tags: map<string, string>, key: string, value: string, upper: string -> string)
    requires key !in AddressKeys
    ensures Envelope(tags[key := value], upper) == Envelope(tags, upper)
    ensures Envelope(tags, upper) == Envelope(map k | k in tags && k in AddressKeys :: tags[k], upper)
  {
    var only := map k | k in tags && k in AddressKeys :: tags[k];
    assert ReadTags(tags[key := value], upper) == ReadTags(tags, upper);
    assert ReadTags(only, upper) == ReadTags(tags, upper);
  }

  /** A house number is never written when there is neither a street, a substreet nor a place. */
  lemma {:induction false} HouseNumberNeedsStreet(tags: map<string, string>, upper: string -> string)
    requires StreetKey !in tags && SubstreetKey !in tags && PlaceKey !in tags
    ensures Envelope(tags, upper) == Envelope(tags - {NumberKey}, upper)
  {
    assert FoldPlace(ReadTags(tags - {NumberKey}, upper)) == FoldPlace(ReadTags(tags, upper)).(number := None);
  }

  /** With a place and no substreet, the place stands in for the substreet, ahead of any street. */
  lemma {:induction false} PlaceReplacesMissingSubstreet(tags: map<string, string>, upper: string -> string)
    requires PlaceKey in tags && SubstreetKey !in tags
    ensures Envelope(tags, upper) == Envelope(tags - {PlaceKey} - {StreetKey} + map[SubstreetKey := tags[PlaceKey]], upper)
  {
    var moved := tags - {PlaceKey} - {StreetKey} + map[SubstreetKey := tags[PlaceKey]];
    assert FoldPlace(ReadTags(moved, upper)).(street := Get(tags, StreetKey), place := Get(tags, PlaceKey))
        == FoldPlace(ReadTags(tags, upper));
  }
}
