/**
 The per-category details of a marketplace listing, and their validation. A bag
 of details is what a client sent: keys and values in the order they came.
 */
module AdAttributes {
  import opened Common
  import opened Verticals

  datatype Json =
    | Null
    | Bool(b: bool)
    | Num(n: real)
    | Str(s: string)
    | List(items: seq<Json>)
    | Obj(entries: seq<(string, Json)>)

  type Entry = (string, Json)
  type Bag = seq<Entry>

  datatype FieldSpec =
    | StringField(maxLength: nat, oneOf: Option<seq<string>>)
    | IntField(min: int, max: int)
    | BooleanField
    | ListField(maxItems: nat, itemLength: nat)

  type Schema = map<string, FieldSpec>

  const RENTAL_TILES := ["SEDAN", "SUV", "LUXURY"]

  /** The details a category takes; None for a category that takes none. */
  function SchemaOf(category: string): Option<Schema> {
    match category
    case "cleaning" => Some(map[
      "subCategory" := StringField(20, Some(CLEANING_TILES)),
      "durationLabel" := StringField(40, None),
      "includes" := ListField(12, 80)])
    case "repairing" => Some(map[
      "subCategory" := StringField(20, Some(REPAIR_TILES)),
      "durationLabel" := StringField(40, None),
      "warrantyLabel" := StringField(40, None)])
    case "car_rental" => Some(map[
      "subCategory" := StringField(20, Some(RENTAL_TILES)),
      "seats" := IntField(1, 60),
      "transmission" := StringField(20, Some(["MANUAL", "AUTOMATIC"])),
      "fuel" := StringField(20, Some(["PETROL", "DIESEL", "ELECTRIC", "HYBRID"]))])
    case "elkstay" => Some(map[
      "roomType" := StringField(40, None),
      "stayType" := StringField(20, Some(["PG", "MENS_HOSTEL", "WOMENS_HOSTEL", "HOMESTAY"])),
      "depositAmount" := IntField(0, 10_000_000),
      "furnished" := BooleanField])
    case _ => None
  }

  // ── one value ──

  datatype Reason =
    | NotAnObject | TakesNoDetails | UnknownDetail
    | NotText | TooLong | NotOneOf | NotWhole | OutOfRange | NotBoolean | NotList | TooMany | BadItem

  predicate BadText(v: Json, maxLength: nat) {
    !v.Str? || Utf16Length(v.s) > maxLength
  }

  /** The reason [v] fails [spec], or None when it passes. */
  function Check(spec: FieldSpec, v: Json): Option<Reason> {
    match spec
    case StringField(maxLength, oneOf) =>
      if !v.Str? then Some(NotText)
      else if Utf16Length(v.s) > maxLength then Some(TooLong)
      else if oneOf.Some? && v.s !in oneOf.value then Some(NotOneOf)
      else None
    case IntField(min, max) =>
      if !v.Num? || v.n != v.n.Floor as real then Some(NotWhole)
      else if v.n < min as real || v.n > max as real then Some(OutOfRange)
      else None
    case BooleanField => if v.Bool? then None else Some(NotBoolean)
    case ListField(maxItems, itemLength) =>
      if !v.List? then Some(NotList)
      else if |v.items| > maxItems then Some(TooMany)
      else if exists i | 0 <= i < |v.items| :: BadText(v.items[i], itemLength) then Some(BadItem)
      else None
  }

  predicate Is(n: real, i: int) {
    n == i as real
  }

  /** What a field of a kind may hold. */
  ghost predicate Fits(spec: FieldSpec, v: Json) {
    match spec
    case StringField(maxLength, None) => v.Str? && Utf16Length(v.s) <= maxLength
    case StringField(maxLength, Some(choices)) => v.Str? && Utf16Length(v.s) <= maxLength && v.s in choices
    case IntField(min, max) => v.Num? && exists i | min <= i <= max :: Is(v.n, i)
    case BooleanField => v.Bool?
    case ListField(maxItems, itemLength) =>
      v.List? && |v.items| <= maxItems && forall item | item in v.items :: item.Str? && Utf16Length(item.s) <= itemLength
  }

  lemma PassesIffFits(spec: FieldSpec, v: Json)
    ensures Check(spec, v).None? <==> Fits(spec, v)
  {
    if spec.IntField? && v.Num? {
      assert Is(v.n, v.n.Floor) <==> v.n == v.n.Floor as real;
    }
  }

  // ── a bag of details ──

  datatype Problem = Problem(field: string, reason: Reason)

  function FieldName(key: string): string {
    "attributes." + key
  }

  /** What is wrong with one entry; an explicit null clears a field and is never wrong on a known key. */
  function Fault(schema: Schema, entry: Entry): Option<Reason> {
    if entry.0 !in schema then Some(UnknownDetail)
    else if entry.1.Null? then None
    else Check(schema[entry.0], entry.1)
  }

  predicate Kept(schema: Schema, entry: Entry) {
    Fault(schema, entry).None? && !entry.1.Null?
  }

  function Problems(schema: Schema, bag: Bag): seq<Problem> {
    if bag == [] then []
    else
      var last := bag[|bag| - 1];
      Problems(schema, bag[..|bag| - 1]) +
      match Fault(schema, last)
      case None => []
      case Some(reason) => [Problem(FieldName(last.0), reason)]
  }

  function Cleaned(schema: Schema, bag: Bag): Bag {
    if bag == [] then []
    else
      var last := bag[|bag| - 1];
      Cleaned(schema, bag[..|bag| - 1]) + if Kept(schema, last) then [last] else []
  }

  /** What is stored, or every problem with what was sent. */
  function Validated(category: string, raw: Option<Json>): Result<Option<Bag>, seq<Problem>> {
    if raw.None? || raw.value.Null? then Ok(None)
    else if !raw.value.Obj? then Err([Problem("attributes", NotAnObject)])
    else
      var bag := raw.value.entries;
      match SchemaOf(category)
      case None => if bag == [] then Ok(None) else Err([Problem("attributes", TakesNoDetails)])
      case Some(schema) =>
        if Problems(schema, bag) != [] then Err(Problems(schema, bag))
        else if Cleaned(schema, bag) == [] then Ok(None)
        else Ok(Some(Cleaned(schema, bag)))
  }

  /** Validates a listing's details, collecting every problem before it refuses. */
  method ValidateAdAttributes(category: string, raw: Option<Json>) returns (r: Result<Option<Bag>, seq<Problem>>)
    ensures r == Validated(category, raw)
  {
    if raw.None? || raw.value.Null? { return Ok(None); }
    if !raw.value.Obj? { return Err([Problem("attributes", NotAnObject)]); }
    var supplied := raw.value.entries;
    var found := SchemaOf(category);
    if found.None? {
      if |supplied| > 0 { return Err([Problem("attributes", TakesNoDetails)]); }
      return Ok(None);
    }
    var schema := found.value;
    var errors: seq<Problem>, clean: Bag := [], [];
    for i := 0 to |supplied|
      invariant errors == Problems(schema, supplied[..i])
      invariant clean == Cleaned(schema, supplied[..i])
    {
      var (key, value) := supplied[i];
      assert supplied[..i + 1][..i] == supplied[..i] && supplied[..i + 1][i] == supplied[i];
      if key !in schema {
        errors := errors + [Problem(FieldName(key), UnknownDetail)];
        continue;
      }
      if value.Null? { continue; }
      var problem := Check(schema[key], value);
      if problem.Some? {
        errors := errors + [Problem(FieldName(key), problem.value)];
        continue;
      }
      clean := clean + [(key, value)];
    }
    assert supplied[..|supplied|] == supplied;
    if |errors| > 0 { return Err(errors); }
    return Ok(if |clean| > 0 then Some(clean) else None);
  }

  // ── what validation means ──

  /** Details that may be sent for a category: every key known, every value that is not null allowed. */
  ghost predicate Acceptable(category: string, raw: Option<Json>) {
    || raw.None? || raw.value.Null?
    || (raw.value.Obj?
        && match SchemaOf(category)
           case None => raw.value.entries == []
           case Some(schema) => forall e | e in raw.value.entries ::
             e.0 in schema && (e.1.Null? || Fits(schema[e.0], e.1)))
  }

  /** Details that may be stored for a category: none, or some, all known, allowed and not null. */
  ghost predicate Storable(category: string, stored: Option<Bag>) {
    stored.Some? ==>
      && stored.value != [] && SchemaOf(category).Some?
      && forall e | e in stored.value ::
           e.0 in SchemaOf(category).value && !e.1.Null? && Fits(SchemaOf(category).value[e.0], e.1)
  }

  /** Where in a bag the entries chosen by [p] stand. */
  function Places(bag: Bag, p: Entry -> bool): seq<nat> {
    if bag == [] then []
    else Places(bag[..|bag| - 1], p) + if p(bag[|bag| - 1]) then [|bag| - 1] else []
  }

  /** Every chosen place once, in order, and no other. */
  lemma {:induction false} PlacesAreExact(bag: Bag, p: Entry -> bool)
    ensures forall j, k | 0 <= j < k < |Places(bag, p)| :: Places(bag, p)[j] < Places(bag, p)[k]
    ensures forall i :: i in Places(bag, p) <==> 0 <= i < |bag| && p(bag[i])
  {
    if bag != [] {
      var rest := bag[..|bag| - 1];
      PlacesAreExact(rest, p);
      forall i ensures i in Places(bag, p) <==> 0 <= i < |bag| && p(bag[i]) {
        assert i in Places(bag, p) <==> i in Places(rest, p) || (i == |rest| && p(bag[|rest|]));
        assert 0 <= i < |rest| ==> rest[i] == bag[i];
      }
      forall k | 0 <= k < |Places(rest, p)| ensures Places(rest, p)[k] < |rest| {
        assert Places(rest, p)[k] in Places(rest, p);
      }
    }
  }

  function IsFault(schema: Schema): Entry -> bool {
    e => Fault(schema, e).Some?
  }

  function IsKept(schema: Schema): Entry -> bool {
    e => Kept(schema, e)
  }

  /** The problems reported are exactly the faulty entries, each once, in the order they were sent. */
  lemma {:induction false} ProblemsAreTheFaults(schema: Schema, bag: Bag)
    ensures var at := Places(bag, IsFault(schema));
            && |Problems(schema, bag)| == |at|
            && forall k | 0 <= k < |at| ::
                 && at[k] < |bag| && Fault(schema, bag[at[k]]).Some?
                 && Problems(schema, bag)[k] == Problem(FieldName(bag[at[k]].0), Fault(schema, bag[at[k]]).value)
  {
    if bag != [] { ProblemsAreTheFaults(schema, bag[..|bag| - 1]); }
  }

  /** What is kept is exactly the entries that have a value, in the order they were sent. */
  lemma {:induction false} CleanedIsTheRest(schema: Schema, bag: Bag)
    ensures var at := Places(bag, IsKept(schema));
            && |Cleaned(schema, bag)| == |at|
            && forall k | 0 <= k < |at| ::
                 at[k] < |bag| && Kept(schema, bag[at[k]]) && Cleaned(schema, bag)[k] == bag[at[k]]
  {
    if bag != [] { CleanedIsTheRest(schema, bag[..|bag| - 1]); }
  }

  lemma {:induction false} NoProblemsNoFaults(schema: Schema, bag: Bag)
    ensures Problems(schema, bag) == [] <==> forall e | e in bag :: Fault(schema, e).None?
  {
    if bag != [] {
      var rest, last := bag[..|bag| - 1], bag[|bag| - 1];
      NoProblemsNoFaults(schema, rest);
      assert bag == rest + [last];
    }
  }

  lemma FaultlessFits(schema: Schema, bag: Bag)
    ensures Problems(schema, bag) == [] <==>
            forall e | e in bag :: e.0 in schema && (e.1.Null? || Fits(schema[e.0], e.1))
  {
    NoProblemsNoFaults(schema, bag);
    forall e | e in bag ensures Fault(schema, e).None? <==> e.0 in schema && (e.1.Null? || Fits(schema[e.0], e.1)) {
      if e.0 in schema { PassesIffFits(schema[e.0], e.1); }
    }
  }

  /** Exactly the acceptable details are accepted. */
  lemma AcceptsExactly(category: string, raw: Option<Json>)
    ensures Validated(category, raw).Ok? <==> Acceptable(category, raw)
  {
    if raw.Some? && raw.value.Obj? && SchemaOf(category).Some? {
      FaultlessFits(SchemaOf(category).value, raw.value.entries);
    }
  }

  /** What is accepted may be stored: nothing unknown, nothing null, nothing out of its bounds. */
  lemma AcceptedIsStorable(category: string, raw: Option<Json>)
    requires Validated(category, raw).Ok?
    ensures Storable(category, Validated(category, raw).value)
  {
    if Validated(category, raw).value.Some? {
      var schema := SchemaOf(category).value;
      var bag := raw.value.entries;
      var at := Places(bag, IsKept(schema));
      CleanedIsTheRest(schema, bag);
      forall e | e in Cleaned(schema, bag) ensures e.0 in schema && !e.1.Null? && Fits(schema[e.0], e.1) {
        var k :| 0 <= k < |at| && Cleaned(schema, bag)[k] == e;
        PassesIffFits(schema[e.0], e.1);
      }
    }
  }

  lemma {:induction false} CleanStays(schema: Schema, bag: Bag)
    requires forall e | e in bag :: Kept(schema, e)
    ensures Cleaned(schema, bag) == bag && Problems(schema, bag) == []
  {
    if bag != [] {
      CleanStays(schema, bag[..|bag| - 1]);
      assert bag[|bag| - 1] in bag;
      assert bag == bag[..|bag| - 1] + [bag[|bag| - 1]];
    }
  }

  /** What may be stored is exactly what validates to itself. */
  lemma StorableIffStable(category: string, stored: Option<Bag>)
    ensures Storable(category, stored) <==>
            Validated(category, if stored.None? then None else Some(Obj(stored.value))) == Ok(stored)
  {
    if stored.Some? {
      if Storable(category, stored) {
        forall e | e in stored.value ensures Kept(SchemaOf(category).value, e) {
          PassesIffFits(SchemaOf(category).value[e.0], e.1);
        }
        CleanStays(SchemaOf(category).value, stored.value);
      } else if Validated(category, Some(Obj(stored.value))) == Ok(stored) {
        AcceptedIsStorable(category, Some(Obj(stored.value)));
      }
    }
  }

  /** So validating a result again changes nothing. */
  lemma ValidatingAgain(category: string, raw: Option<Json>)
    requires Validated(category, raw).Ok?
    ensures var stored := Validated(category, raw).value;
            Validated(category, if stored.None? then None else Some(Obj(stored.value))) == Ok(stored)
  {
    AcceptedIsStorable(category, raw);
    StorableIffStable(category, Validated(category, raw).value);
  }
}
