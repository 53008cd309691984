/** Finding the area that serves an address: by distance first, by pincode otherwise. */
module AreaMatching {
  import opened Common

  datatype Point = Point(lat: real, lng: real)

  /** An area has a centre only when it could be placed on the map. */
  datatype Area = Area(id: nat, pincode: string, radiusKm: real, lat: Option<real>, lng: Option<real>)

  datatype Address = Address(text: string, lat: Option<real>, lng: Option<real>)

  /** How far apart two points are; nothing below depends on how it is measured. */
  type Distance = (Point, Point) -> real

  // ── pincodes in a text ──

  predicate IsWordChar(c: char) {
    IsDigit(c) || 'a' <= c <= 'z' || 'A' <= c <= 'Z' || c == '_'
  }

  lemma TheLowerLetters(c: char)
    ensures 'a' <= c <= 'z' <==> c in "abcdefghijklmnopqrstuvwxyz"
  {
    var lower := "abcdefghijklmnopqrstuvwxyz";
    if 'a' <= c <= 'z' { assert lower[c as int - 'a' as int] == c; }
  }

  lemma TheUpperLetters(c: char)
    ensures 'A' <= c <= 'Z' <==> c in "ABCDEFGHIJKLMNOPQRSTUVWXYZ"
  {
    var upper := "ABCDEFGHIJKLMNOPQRSTUVWXYZ";
    if 'A' <= c <= 'Z' { assert upper[c as int - 'A' as int] == c; }
  }

  /** The characters of words: ten digits, the letters of both cases, and the underscore. */
  lemma TheWordChars(c: char)
    ensures IsWordChar(c) <==>
            c in "0123456789" || c in "abcdefghijklmnopqrstuvwxyz" || c in "ABCDEFGHIJKLMNOPQRSTUVWXYZ" || c == '_'
  {
    TheTenDigits(c);
    TheLowerLetters(c);
    TheUpperLetters(c);
  }

  /** Between a character of a word and none, at place [i] of the text. */
  predicate IsBoundary(text: string, i: nat)
    requires i <= |text|
  {
    (i > 0 && IsWordChar(text[i - 1])) != (i < |text| && IsWordChar(text[i]))
  }

  const PINCODE_LENGTH := 6

  /** Six digits between two boundaries. */
  predicate MatchesAt(text: string, i: nat) {
    && i + PINCODE_LENGTH <= |text|
    && IsBoundary(text, i) && IsBoundary(text, i + PINCODE_LENGTH)
    && forall j | i <= j < i + PINCODE_LENGTH :: IsDigit(text[j])
  }

  /** All matches from [i] on, each search going on where the last match ended. */
  function PincodesFrom(text: string, i: nat): seq<string>
    decreases |text| - i
  {
    if i + PINCODE_LENGTH > |text| then []
    else if MatchesAt(text, i) then [text[i..i + PINCODE_LENGTH]] + PincodesFrom(text, i + PINCODE_LENGTH)
    else PincodesFrom(text, i + 1)
  }

  function Pincodes(text: string): seq<string> {
    PincodesFrom(text, 0)
  }

  /** A word: as many word characters in a row as there are. */
  ghost predicate IsWord(text: string, i: int, j: int) {
    && 0 <= i < j <= |text|
    && (forall k | i <= k < j :: IsWordChar(text[k]))
    && (i > 0 ==> !IsWordChar(text[i - 1]))
    && (j < |text| ==> !IsWordChar(text[j]))
  }

  ghost predicate IsPincodeOf(text: string, w: string) {
    |w| == 6 && (forall k | 0 <= k < |w| :: IsDigit(w[k]))
    && exists i, j :: IsWord(text, i, j) && text[i..j] == w
  }

  lemma MatchIsWord(text: string, i: nat)
    ensures MatchesAt(text, i) <==>
              IsWord(text, i, i + PINCODE_LENGTH) && forall k | i <= k < i + PINCODE_LENGTH :: IsDigit(text[k])
  {
    if i + PINCODE_LENGTH <= |text| && forall k | i <= k < i + PINCODE_LENGTH :: IsDigit(text[k]) {
      assert IsDigit(text[i]) && IsDigit(text[i + PINCODE_LENGTH - 1]);
    }
  }

  /** No match starts inside another, so none is missed by going on at its end. */
  lemma MatchesApart(text: string, i: nat, j: nat)
    requires MatchesAt(text, i) && i < j < i + PINCODE_LENGTH
    ensures !MatchesAt(text, j)
  {
    assert IsDigit(text[j]) && IsDigit(text[j - 1]);
  }

  lemma {:induction false} ScanFindsAll(text: string, i: nat, w: string)
    ensures w in PincodesFrom(text, i) <==>
            exists j :: i <= j && MatchesAt(text, j) && text[j..j + PINCODE_LENGTH] == w
    decreases |text| - i
  {
    if i + PINCODE_LENGTH <= |text| {
      var next := if MatchesAt(text, i) then i + PINCODE_LENGTH else i + 1;
      ScanFindsAll(text, next, w);
      forall j | i < j < next ensures !MatchesAt(text, j) { MatchesApart(text, i, j); }
    }
  }

  /** The pincodes of a text are its words of exactly six digits. */
  lemma PincodesAreWords(text: string, w: string)
    ensures w in Pincodes(text) <==> IsPincodeOf(text, w)
  {
    ScanFindsAll(text, 0, w);
    if w in Pincodes(text) {
      var j :| 0 <= j && MatchesAt(text, j) && text[j..j + PINCODE_LENGTH] == w;
      MatchIsWord(text, j);
      assert IsWord(text, j, j + PINCODE_LENGTH);
    }
    if IsPincodeOf(text, w) {
      var i, j :| IsWord(text, i, j) && text[i..j] == w;
      assert forall k | i <= k < i + PINCODE_LENGTH :: text[k] == w[k - i];
      MatchIsWord(text, i);
    }
  }

  // ── the nearest area that covers a pin ──

  datatype Covering = Covering(area: Area, km: real)

  predicate Placed(a: Area) {
    a.lat.Some? && a.lng.Some?
  }

  function Km(d: Distance, pin: Point, a: Area): real
    requires Placed(a)
  {
    d(pin, Point(a.lat.value, a.lng.value))
  }

  predicate Covers(d: Distance, pin: Point, a: Area) {
    Placed(a) && Km(d, pin, a) <= a.radiusKm
  }

  function CoveringAreas(d: Distance, pin: Point, areas: seq<Area>): seq<Covering> {
    if areas == [] then []
    else
      var rest := CoveringAreas(d, pin, areas[1..]);
      if Covers(d, pin, areas[0]) then [Covering(areas[0], Km(d, pin, areas[0]))] + rest else rest
  }

  function Insert(c: Covering, sorted: seq<Covering>): seq<Covering> {
    if sorted == [] || c.km <= sorted[0].km then [c] + sorted
    else [sorted[0]] + Insert(c, sorted[1..])
  }

  /** A stable sort by distance. */
  function SortByKm(cs: seq<Covering>): seq<Covering> {
    if cs == [] then [] else Insert(cs[0], SortByKm(cs[1..]))
  }

  function FirstNamed(areas: seq<Area>, pincodes: seq<string>): Option<Area> {
    if areas == [] then None
    else if areas[0].pincode in pincodes then Some(areas[0])
    else FirstNamed(areas[1..], pincodes)
  }

  /** By distance when the address has a pin and something covers it; by the pincodes of its text otherwise. */
  function MatchArea(d: Distance, areas: seq<Area>, address: Address): Option<Area> {
    var covering :=
      if address.lat.Some? && address.lng.Some?
      then SortByKm(CoveringAreas(d, Point(address.lat.value, address.lng.value), areas))
      else [];
    if covering != [] then Some(covering[0].area) else FirstNamed(areas, Pincodes(address.text))
  }

  // ── what it finds ──

  /** An area that has been placed, at its latitude and longitude, and whose radius reaches the pin. */
  ghost predicate Reaches(d: Distance, pin: Point, a: Area) {
    a.lat.Some? && a.lng.Some? && d(pin, Point(a.lat.value, a.lng.value)) <= a.radiusKm
  }

  /** Between two areas that reach a pin. */
  ghost predicate NoFarther(d: Distance, pin: Point, a: Area, b: Area)
    requires Reaches(d, pin, a) && Reaches(d, pin, b)
  {
    d(pin, Point(a.lat.value, a.lng.value)) <= d(pin, Point(b.lat.value, b.lng.value))
  }

  /** The area at [k] reaches the pin, none nearer does, and none as near comes before it. */
  ghost predicate IsNearest(d: Distance, pin: Point, areas: seq<Area>, k: int) {
    && 0 <= k < |areas| && Reaches(d, pin, areas[k])
    && (forall j | 0 <= j < |areas| && Reaches(d, pin, areas[j]) :: NoFarther(d, pin, areas[k], areas[j]))
    && (forall j | 0 <= j < k && Reaches(d, pin, areas[j]) :: !NoFarther(d, pin, areas[j], areas[k]))
  }

  /** The area at [k] has its pincode among the words of the text, and none before it does. */
  ghost predicate IsFirstNamed(areas: seq<Area>, text: string, k: int) {
    0 <= k < |areas| && IsPincodeOf(text, areas[k].pincode) && forall j | 0 <= j < k :: !IsPincodeOf(text, areas[j].pincode)
  }

  /** Sorting puts in front what is nearest, and of what is as near, what came first. */
  lemma {:induction false} NearestComesFirst(d: Distance, pin: Point, areas: seq<Area>)
    ensures var sorted := SortByKm(CoveringAreas(d, pin, areas));
            if sorted == [] then forall j | 0 <= j < |areas| :: !Reaches(d, pin, areas[j])
            else exists k :: && IsNearest(d, pin, areas, k) && sorted[0].area == areas[k]
                             && sorted[0].km == d(pin, Point(areas[k].lat.value, areas[k].lng.value))
  {
    if areas != [] {
      var rest := areas[1..];
      NearestComesFirst(d, pin, rest);
      var sorted := SortByKm(CoveringAreas(d, pin, rest));
      assert forall j | 1 <= j < |areas| :: areas[j] == rest[j - 1];
      if sorted != [] {
        var k :| && IsNearest(d, pin, rest, k) && sorted[0].area == rest[k]
                 && sorted[0].km == d(pin, Point(rest[k].lat.value, rest[k].lng.value));
        NearestOfLonger(d, pin, areas, k);
      } else if Covers(d, pin, areas[0]) {
        assert IsNearest(d, pin, areas, 0);
      }
    }
  }

  lemma NearestOfLonger(d: Distance, pin: Point, areas: seq<Area>, k: int)
    requires areas != [] && IsNearest(d, pin, areas[1..], k)
    ensures if Reaches(d, pin, areas[0]) && NoFarther(d, pin, areas[0], areas[k + 1])
            then IsNearest(d, pin, areas, 0) else IsNearest(d, pin, areas, k + 1)
  {
    assert forall j | 1 <= j < |areas| :: areas[j] == areas[1..][j - 1];
  }

  lemma {:induction false} FirstNamedIsFirst(areas: seq<Area>, text: string)
    ensures match FirstNamed(areas, Pincodes(text))
            case Some(a) => exists k :: IsFirstNamed(areas, text, k) && areas[k] == a
            case None => forall j | 0 <= j < |areas| :: !IsPincodeOf(text, areas[j].pincode)
  {
    if areas != [] {
      PincodesAreWords(text, areas[0].pincode);
      if areas[0].pincode in Pincodes(text) {
        assert IsFirstNamed(areas, text, 0);
      } else {
        FirstNamedIsFirst(areas[1..], text);
        assert forall j | 1 <= j < |areas| :: areas[j] == areas[1..][j - 1];
        if FirstNamed(areas, Pincodes(text)).Some? {
          var k :| IsFirstNamed(areas[1..], text, k) && areas[1..][k] == FirstNamed(areas, Pincodes(text)).value;
          assert IsFirstNamed(areas, text, k + 1);
        }
      }
    }
  }

  ghost predicate Pinned(d: Distance, areas: seq<Area>, address: Address) {
    && address.lat.Some? && address.lng.Some?
    && exists j :: 0 <= j < |areas| && Reaches(d, Point(address.lat.value, address.lng.value), areas[j])
  }

  /**
   An address whose pin some area covers gets the nearest such area, the
   earliest of equals; any other gets the first area whose pincode is a word
   of exactly six digits in its text, and none exactly when there is none.
   */
  lemma MatchAreaIsRight(d: Distance, areas: seq<Area>, address: Address)
    ensures var found := MatchArea(d, areas, address);
            if Pinned(d, areas, address) then
              found.Some? && exists k :: IsNearest(d, Point(address.lat.value, address.lng.value), areas, k) && areas[k] == found.value
            else if exists j :: 0 <= j < |areas| && IsPincodeOf(address.text, areas[j].pincode) then
              found.Some? && exists k :: IsFirstNamed(areas, address.text, k) && areas[k] == found.value
            else found.None?
  {
    if address.lat.Some? && address.lng.Some? {
      NearestComesFirst(d, Point(address.lat.value, address.lng.value), areas);
    }
    FirstNamedIsFirst(areas, address.text);
  }
}
