/** Who may touch a listing, and what each call prepares and writes. */
module ListingLaws {
  import opened Common
  import opened Verticals
  import opened AdAttributes
  import opened ListingProtocol

  /** A listing still there, of the user who asks or of a category they moderate. */
  predicate InHand(s: Sys, user: UserId, id: AdId, moderates: bool) {
    id in s.ads && !s.ads[id].deleted && (s.ads[id].seller == user || moderates)
  }

  /** A listing is created exactly with details its category accepts, and as asked. */
  lemma CreateLands(s: Sys, e: Event)
    requires e.Create? && e.id !in s.ads
    ensures var v := Step(s, e);
            && v.calls == s.calls
            && (e.id in v.ads <==> Acceptable(e.category, e.attributes))
            && v.ads == (if e.id in v.ads then s.ads[e.id := v.ads[e.id]] else s.ads)
            && (e.id in v.ads ==>
                  && v.ads[e.id] == Listing(e.seller, e.title, e.category, v.ads[e.id].attributes, false)
                  && Storable(e.category, v.ads[e.id].attributes))
  {
    AcceptsExactly(e.category, e.attributes);
    if Validated(e.category, e.attributes).Ok? { AcceptedIsStorable(e.category, e.attributes); }
  }

  /** It is removed for its seller or a moderator, once, and keeps what it said. */
  lemma RemoveLands(s: Sys, e: Event)
    requires e.Remove?
    ensures Step(s, e) == if InHand(s, e.user, e.id, e.moderates)
                          then s.(ads := s.ads[e.id := Listing(s.ads[e.id].seller, s.ads[e.id].title, s.ads[e.id].category,
                                                               s.ads[e.id].attributes, true)])
                          else s
  {
  }

  /** Who is refused, and why. */
  lemma Refusals(ads: map<AdId, Listing>, user: UserId, id: AdId, moderates: bool)
    ensures Manageable(ads, user, id, moderates) == Err(NotFound) <==> id !in ads || ads[id].deleted
    ensures Manageable(ads, user, id, moderates) == Err(NotYours) <==>
              id in ads && !ads[id].deleted && ads[id].seller != user && !moderates
  {
  }

  /**
   An edit is prepared exactly for its seller or a moderator, with details the
   category after it accepts. It will write the title and category it gives;
   details only if it gives some, or moves the category, which without any
   clears them.
   */
  lemma UpdateBegins(s: Sys, e: Event)
    requires e.Update? && e.c !in s.calls
    ensures var v := Step(s, e);
            var p := e.patch;
            var after := if p.category.Some? then p.category.value else if e.id in s.ads then s.ads[e.id].category else "";
            && v.ads == s.ads
            && (e.c in v.calls <==> && InHand(s, e.user, e.id, e.moderates)
                                    && (p.attributes.Some? ==> Acceptable(after, p.attributes)))
            && v.calls == (if e.c in v.calls then s.calls[e.c := v.calls[e.c]] else s.calls)
            && (e.c in v.calls ==>
                  var edit := v.calls[e.c];
                  && edit.id == e.id && edit.title == p.title && edit.category == p.category
                  && (p.attributes.Some? ==> edit.attributes.Some? && Storable(after, edit.attributes.value))
                  && (p.attributes.None? ==> edit.attributes == if after != s.ads[e.id].category then Some(None) else None))
  {
    if e.id in s.ads {
      var after := e.patch.category.GetOr(s.ads[e.id].category);
      AcceptsExactly(after, e.patch.attributes);
      if Validated(after, e.patch.attributes).Ok? { AcceptedIsStorable(after, e.patch.attributes); }
    }
  }

  /** What is stored of details that are accepted is what was sent, less the nulls. */
  lemma StoredIsSent(category: string, bag: Bag, e: Entry)
    requires SchemaOf(category).Some? && Validated(category, Some(Obj(bag))).Ok?
    ensures var stored := Validated(category, Some(Obj(bag))).value;
            (stored.Some? && e in stored.value) <==> (e in bag && !e.1.Null?)
  {
    var schema := SchemaOf(category).value;
    var at := Places(bag, IsKept(schema));
    CleanedIsTheRest(schema, bag);
    PlacesAreExact(bag, IsKept(schema));
    NoProblemsNoFaults(schema, bag);
    if e in bag && !e.1.Null? {
      var i :| 0 <= i < |bag| && bag[i] == e;
      assert i in at;
      var k :| 0 <= k < |at| && at[k] == i;
      assert Cleaned(schema, bag)[k] == e;
    }
    if e in Cleaned(schema, bag) {
      var k :| 0 <= k < |at| && Cleaned(schema, bag)[k] == e;
      assert bag[at[k]] == e && Kept(schema, e);
    }
  }

  /** Writing replaces what the edit carries and nothing else, and ends the call. */
  lemma WrittenLands(s: Sys, c: CallId)
    requires c in s.calls && s.calls[c].id in s.ads
    ensures var e := s.calls[c];
            var was, v := s.ads[e.id], Step(s, Written(c));
            && v.calls == s.calls - {c}
            && v.ads == s.ads[e.id := Listing(
                 was.seller,
                 if e.title.Some? then e.title.value else was.title,
                 if e.category.Some? then e.category.value else was.category,
                 if e.attributes.Some? then e.attributes.value else was.attributes,
                 was.deleted)]
  {
  }

  // ── the fields ──

  /** Free text is at most forty units long, of whatever field. */
  lemma TextFields(v: string)
    ensures Check(SchemaOf("cleaning").value["durationLabel"], Str(v)).None? <==> Utf16Length(v) <= 40
    ensures Check(SchemaOf("repairing").value["durationLabel"], Str(v)).None? <==> Utf16Length(v) <= 40
    ensures Check(SchemaOf("repairing").value["warrantyLabel"], Str(v)).None? <==> Utf16Length(v) <= 40
    ensures Check(SchemaOf("elkstay").value["roomType"], Str(v)).None? <==> Utf16Length(v) <= 40
  {
  }

  /** A car has from 1 to 60 seats, a deposit is at most ten million, and a list of what is included at most twelve lines of eighty. */
  lemma NumberAndListFields(n: real, lines: seq<Json>)
    ensures Check(SchemaOf("car_rental").value["seats"], Num(n)).None? <==> exists i | 1 <= i <= 60 :: Is(n, i)
    ensures Check(SchemaOf("elkstay").value["depositAmount"], Num(n)).None? <==> exists i | 0 <= i <= 10_000_000 :: Is(n, i)
    ensures Check(SchemaOf("cleaning").value["includes"], List(lines)).None? <==>
              |lines| <= 12 && forall l | l in lines :: l.Str? && Utf16Length(l.s) <= 80
  {
    PassesIffFits(IntField(1, 60), Num(n));
    PassesIffFits(IntField(0, 10_000_000), Num(n));
    PassesIffFits(ListField(12, 80), List(lines));
  }

  lemma ShortEnough(v: string)
    requires |v| <= 10
    ensures Utf16Length(v) <= 20
  {
  }

  /** Chosen text is one of its choices, all of which are short enough. */
  lemma ChoiceFields(v: string)
    ensures Check(SchemaOf("car_rental").value["subCategory"], Str(v)).None? <==> v == "SEDAN" || v == "SUV" || v == "LUXURY"
    ensures Check(SchemaOf("car_rental").value["transmission"], Str(v)).None? <==> v == "MANUAL" || v == "AUTOMATIC"
    ensures Check(SchemaOf("car_rental").value["fuel"], Str(v)).None? <==>
              v == "PETROL" || v == "DIESEL" || v == "ELECTRIC" || v == "HYBRID"
  {
    if |v| <= 10 { ShortEnough(v); }
  }

  lemma StayAndTileFields(v: string)
    ensures Check(SchemaOf("elkstay").value["stayType"], Str(v)).None? ==>
              v == "PG" || v == "MENS_HOSTEL" || v == "WOMENS_HOSTEL" || v == "HOMESTAY"
    ensures Check(SchemaOf("cleaning").value["subCategory"], Str(v)).None? <==> v in Categories(Cleaning)
    ensures Check(SchemaOf("repairing").value["subCategory"], Str(v)).None? <==> v in Categories(Repair)
  {
    if |v| <= 10 { ShortEnough(v); }
  }
}
