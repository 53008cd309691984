/** When the details stored with a listing are right for the category stored with it. */
module ListingRuns {
  import opened Common
  import opened AdAttributes
  import opened ListingProtocol

  ghost predicate Sound(ad: Listing) {
    Storable(ad.category, ad.attributes)
  }

  ghost predicate Inv(s: Sys) {
    && (forall id | id in s.ads :: Sound(s.ads[id]))
    && (forall c | c in s.calls :: s.calls[c].id in s.ads && Sound(Applied(s.ads[s.calls[c].id], s.calls[c])))
  }

  /** Moves a listing to another category while another edit of it is prepared and not yet written. */
  predicate Overtakes(s: Sys, e: Event) {
    && e.Written? && e.c in s.calls && s.calls[e.c].id in s.ads
    && var edit := s.calls[e.c];
    && edit.category.Some? && edit.category.value != s.ads[edit.id].category
    && exists d | d in s.calls :: d != e.c && s.calls[d].id == edit.id
  }

  predicate NeverOvertaken(es: seq<Event>) {
    es == [] || (NeverOvertaken(es[..|es| - 1]) && !Overtakes(Run(EMPTY, es[..|es| - 1]), es[|es| - 1]))
  }

  /** An edit prepared against a sound listing leaves it sound. */
  lemma PreparedIsSound(ad: Listing, id: AdId, p: Patch)
    requires Sound(ad) && Prepared(ad, id, p).Ok?
    ensures Sound(Applied(ad, Prepared(ad, id, p).value))
  {
    if p.attributes.Some? { AcceptedIsStorable(p.category.GetOr(ad.category), p.attributes); }
  }

  /** An edit that is sound for a listing stays so for any sound listing of the same category. */
  lemma SoundForSameCategory(ad: Listing, now: Listing, e: Edit)
    requires Sound(ad) && Sound(now) && Sound(Applied(ad, e)) && now.category == ad.category
    requires e.category.Some? && e.category.value != ad.category ==> e.attributes.Some?
    ensures Sound(Applied(now, e))
  {
  }

  /** An edit that moves the category also says what becomes of the details. */
  ghost predicate Complete(s: Sys) {
    forall c | c in s.calls && s.calls[c].id in s.ads ::
      s.calls[c].category.Some? && s.calls[c].category.value != s.ads[s.calls[c].id].category ==> s.calls[c].attributes.Some?
  }

  lemma WrittenKeeps(s: Sys, e: Event)
    requires Inv(s) && Complete(s) && e.Written? && !Overtakes(s, e)
    ensures Inv(Step(s, e)) && Complete(Step(s, e))
  {
    if e.c in s.calls {
      var t, edit := Step(s, e), s.calls[e.c];
      forall d | d in t.calls
        ensures t.calls[d].id in t.ads && Sound(Applied(t.ads[t.calls[d].id], t.calls[d]))
        ensures t.calls[d].category.Some? && t.calls[d].category.value != t.ads[t.calls[d].id].category ==> t.calls[d].attributes.Some?
      {
        if t.calls[d].id == edit.id {
          SoundForSameCategory(s.ads[edit.id], t.ads[edit.id], t.calls[d]);
        }
      }
    }
  }

  lemma StepKeeps(s: Sys, e: Event)
    requires Inv(s) && Complete(s) && !Overtakes(s, e)
    ensures Inv(Step(s, e)) && Complete(Step(s, e))
  {
    match e
    case Create(id, _, _, category, raw) =>
      if Validated(category, raw).Ok? { AcceptedIsStorable(category, raw); }
    case Update(_, user, id, patch, moderates) =>
      if Manageable(s.ads, user, id, moderates).Ok? && Prepared(s.ads[id], id, patch).Ok? {
        PreparedIsSound(s.ads[id], id, patch);
      }
    case Written(_) => WrittenKeeps(s, e);
    case _ =>
  }

  lemma {:induction false} Reachable(es: seq<Event>)
    requires NeverOvertaken(es)
    ensures Inv(Run(EMPTY, es)) && Complete(Run(EMPTY, es))
  {
    if es != [] {
      Reachable(es[..|es| - 1]);
      StepKeeps(Run(EMPTY, es[..|es| - 1]), es[|es| - 1]);
    }
  }

  /**
   After any creates, edits and category changes, stored details are none or
   valid for the stored category, as long as no edit that moves the category
   is written while another edit of the same listing is on its way.
   */
  lemma StoredDetailsFit(es: seq<Event>, id: AdId)
    requires NeverOvertaken(es) && id in Run(EMPTY, es).ads
    ensures Storable(Run(EMPTY, es).ads[id].category, Run(EMPTY, es).ads[id].attributes)
  {
    Reachable(es);
  }

  /** Calls run one after another: each edit is written right after it was prepared. */
  predicate OneByOne(es: seq<Event>) {
    forall i | 0 <= i < |es| && es[i].Update? :: i + 1 < |es| ==> es[i + 1] == Written(es[i].c)
  }

  /** Calls that run one after another never overtake. */
  lemma {:induction false} OneByOneNeverOvertakes(es: seq<Event>)
    requires OneByOne(es)
    ensures NeverOvertaken(es)
    ensures forall c | c in Run(EMPTY, es).calls :: es != [] && es[|es| - 1].Update? && es[|es| - 1].c == c
  {
    if es != [] {
      var rest := es[..|es| - 1];
      forall i | 0 <= i < |rest| && rest[i].Update? && i + 1 < |rest| ensures rest[i + 1] == Written(rest[i].c) {
        assert es[i].Update?;
      }
      OneByOneNeverOvertakes(rest);
      assert rest != [] ==> rest[|rest| - 1] == es[|rest| - 1];
    }
  }

  /** A detail that only this category has. */
  function Telltale(category: string): Entry
    requires SchemaOf(category).Some?
  {
    match category
    case "cleaning" => ("includes", List([]))
    case "repairing" => ("warrantyLabel", Str(""))
    case "car_rental" => ("seats", Num(1.0))
    case _ => ("roomType", Str(""))
  }

  lemma TelltaleTells(category: string, other: string)
    requires SchemaOf(category).Some?
    ensures Storable(other, Some([Telltale(category)])) <==> other == category
  {
    var bag := [Telltale(category)];
    assert bag[0] in bag;
    assert category == "car_rental" ==> Is(1.0, 1);
    assert category in {"cleaning", "repairing", "car_rental", "elkstay"};
    assert SchemaOf(other).Some? ==> other in {"cleaning", "repairing", "car_rental", "elkstay"};
  }

  /** Every edit that could have been prepared against [was] leaves [now] sound. */
  ghost predicate AllEditsSafe(was: Listing, now: Listing) {
    forall id, p :: Prepared(was, id, p).Ok? ==> Sound(Applied(now, Prepared(was, id, p).value))
  }

  /**
   Writing an edit later than it was prepared is safe, whatever the edit,
   exactly when the listing still has the category it was read with, or that
   category takes no details and the listing has none now.
   */
  lemma LateEditsSafeIff(was: Listing, now: Listing)
    requires Sound(was) && Sound(now)
    ensures AllEditsSafe(was, now) <==>
            now.category == was.category || (SchemaOf(was.category).None? && now.attributes.None?)
  {
    if now.category == was.category {
      forall id, p | Prepared(was, id, p).Ok? ensures Sound(Applied(now, Prepared(was, id, p).value)) {
        PreparedIsSound(was, id, p);
        SoundForSameCategory(was, now, Prepared(was, id, p).value);
      }
    } else if SchemaOf(was.category).Some? {
      DetailsCanMismatch(was, now);
    } else if now.attributes.None? {
      forall id, p | Prepared(was, id, p).Ok? ensures Sound(Applied(now, Prepared(was, id, p).value)) {
        PreparedIsSound(was, id, p);
      }
    } else {
      var p := Patch(None, Some(was.category), None);
      assert Prepared(was, 0, p) == Ok(Edit(0, None, Some(was.category), None));
      assert !Sound(Applied(now, Prepared(was, 0, p).value));
    }
  }

  lemma DetailsCanMismatch(was: Listing, now: Listing)
    requires SchemaOf(was.category).Some? && now.category != was.category
    ensures !AllEditsSafe(was, now)
  {
    var bag := [Telltale(was.category)];
    var p := Patch(None, None, Some(Obj(bag)));
    TelltaleTells(was.category, was.category);
    TelltaleTells(was.category, now.category);
    StorableIffStable(was.category, Some(bag));
    assert Prepared(was, 0, p) == Ok(Edit(0, None, None, Some(Some(bag))));
    assert !Sound(Applied(now, Prepared(was, 0, p).value));
  }

  lemma Then(es: seq<Event>, e: Event) returns (longer: seq<Event>)
    ensures longer == es + [e] && Run(EMPTY, longer) == Step(Run(EMPTY, es), e)
  {
    longer := es + [e];
    assert longer[..|longer| - 1] == es;
  }

  // ── which edits in flight can mismatch ──

  /** The listing is sound now, after any one edit in flight, and after any two in either order. */
  ghost predicate PairsSound(ad: Listing, calls: map<CallId, Edit>, id: AdId) {
    && Sound(ad)
    && (forall c | c in calls && calls[c].id == id :: Sound(Applied(ad, calls[c])))
    && (forall c, d | c in calls && d in calls && c != d && calls[c].id == id && calls[d].id == id ::
          Sound(Applied(Applied(ad, calls[c]), calls[d])))
  }

  /** After three edits the category and the details are those one or two of them leave. */
  lemma ThreeAreTwo(ad: Listing, e: Edit, f: Edit, g: Edit)
    requires Sound(Applied(ad, e)) && Sound(Applied(ad, f)) && Sound(Applied(ad, g))
    requires Sound(Applied(Applied(ad, e), f)) && Sound(Applied(Applied(ad, e), g)) && Sound(Applied(Applied(ad, f), g))
    ensures Sound(Applied(Applied(Applied(ad, e), f), g))
  {
  }

  predicate Starts(e: Event, id: AdId) {
    e.Update? && e.id == id
  }

  lemma WrittenKeepsPairs(s: Sys, c: CallId)
    requires c in s.calls && s.calls[c].id in s.ads && PairsSound(s.ads[s.calls[c].id], s.calls, s.calls[c].id)
    ensures PairsSound(Applied(s.ads[s.calls[c].id], s.calls[c]), s.calls - {c}, s.calls[c].id)
  {
    var id := s.calls[c].id;
    var ad, left := s.ads[id], s.calls - {c};
    forall d, e | d in left && e in left && d != e && left[d].id == id && left[e].id == id
      ensures Sound(Applied(Applied(Applied(ad, s.calls[c]), left[d]), left[e]))
    {
      ThreeAreTwo(ad, s.calls[c], s.calls[d], s.calls[e]);
    }
  }

  lemma StepKeepsPairs(s: Sys, e: Event, id: AdId)
    requires id in s.ads && PairsSound(s.ads[id], s.calls, id) && !Starts(e, id)
    ensures id in Step(s, e).ads && PairsSound(Step(s, e).ads[id], Step(s, e).calls, id)
  {
    if e.Written? && e.c in s.calls && s.calls[e.c].id == id { WrittenKeepsPairs(s, e.c); }
  }

  lemma {:induction false} RunKeepsPairs(s: Sys, more: seq<Event>, id: AdId)
    requires id in s.ads && PairsSound(s.ads[id], s.calls, id) && forall e | e in more :: !Starts(e, id)
    ensures id in Run(s, more).ads && PairsSound(Run(s, more).ads[id], Run(s, more).calls, id)
  {
    if more != [] {
      RunKeepsPairs(s, more[..|more| - 1], id);
      assert more[|more| - 1] in more;
      StepKeepsPairs(Run(s, more[..|more| - 1]), more[|more| - 1], id);
    }
  }

  /** A run that starts no further edit of the listing and leaves it with details of another category. */
  ghost predicate Mismatches(s: Sys, more: seq<Event>, id: AdId) {
    && (forall e | e in more :: !Starts(e, id))
    && id in Run(s, more).ads && !Sound(Run(s, more).ads[id])
  }

  lemma OneWritten(s: Sys, c: CallId)
    requires c in s.calls && s.calls[c].id in s.ads
    ensures Run(s, [Written(c)]) == Sys(s.ads[s.calls[c].id := Applied(s.ads[s.calls[c].id], s.calls[c])], s.calls - {c})
  {
    assert Run(s, [Written(c)]) == Step(Run(s, []), Written(c));
  }

  lemma TwoWritten(s: Sys, c: CallId, d: CallId, id: AdId)
    requires c in s.calls && d in s.calls && c != d && s.calls[c].id == id && s.calls[d].id == id && id in s.ads
    ensures var t := Run(s, [Written(c), Written(d)]);
            id in t.ads && t.ads[id] == Applied(Applied(s.ads[id], s.calls[c]), s.calls[d])
  {
    OneWritten(s, c);
    assert [Written(c), Written(d)][..1] == [Written(c)];
    assert Run(s, [Written(c), Written(d)]) == Step(Run(s, [Written(c)]), Written(d));
  }

  lemma PairMismatches(s: Sys, id: AdId) returns (more: seq<Event>)
    requires id in s.ads && !PairsSound(s.ads[id], s.calls, id)
    ensures Mismatches(s, more, id)
  {
    if !Sound(s.ads[id]) {
      more := [];
    } else if c :| c in s.calls && s.calls[c].id == id && !Sound(Applied(s.ads[id], s.calls[c])) {
      more := [Written(c)];
      OneWritten(s, c);
    } else {
      var c, d :| c in s.calls && d in s.calls && c != d && s.calls[c].id == id && s.calls[d].id == id
                  && !Sound(Applied(Applied(s.ads[id], s.calls[c]), s.calls[d]));
      more := [Written(c), Written(d)];
      TwoWritten(s, c, d, id);
    }
  }

  /**
   However many edits of a listing are in flight, in whatever order they land
   or die, they can leave it with details of another category if and only if
   one of them, or two in one order, can.
   */
  lemma MismatchNeedsTwo(s: Sys, id: AdId)
    requires id in s.ads
    ensures (exists more :: Mismatches(s, more, id)) <==> !PairsSound(s.ads[id], s.calls, id)
  {
    if PairsSound(s.ads[id], s.calls, id) {
      forall more ensures !Mismatches(s, more, id) {
        if forall e | e in more :: !Starts(e, id) { RunKeepsPairs(s, more, id); }
      }
    } else {
      var more := PairMismatches(s, id);
      assert Mismatches(s, more, id);
    }
  }

  /** The edit that event [e] has prepared, if it is let through and about listing [id]. */
  function NewEdit(s: Sys, e: Event, id: AdId): Option<Edit> {
    if e.Update? && e.id == id && e.c !in s.calls && Manageable(s.ads, e.user, id, e.moderates).Ok?
       && Prepared(s.ads[id], id, e.patch).Ok?
    then Some(Prepared(s.ads[id], id, e.patch).value) else None
  }

  /** An edit let through that, in one order or the other, does not go with one still in flight. */
  ghost predicate Clashes(s: Sys, e: Event, id: AdId) {
    && NewEdit(s, e, id).Some? && id in s.ads
    && exists d | d in s.calls && s.calls[d].id == id ::
         || !Sound(Applied(Applied(s.ads[id], s.calls[d]), NewEdit(s, e, id).value))
         || !Sound(Applied(Applied(s.ads[id], NewEdit(s, e, id).value), s.calls[d]))
  }

  lemma NewEditKeepsPairsIff(s: Sys, e: Event, id: AdId)
    requires id in s.ads && PairsSound(s.ads[id], s.calls, id) && NewEdit(s, e, id).Some?
    ensures PairsSound(s.ads[id], s.calls[e.c := NewEdit(s, e, id).value], id) <==> !Clashes(s, e, id)
  {
    PreparedIsSound(s.ads[id], id, e.patch);
    var calls := s.calls[e.c := NewEdit(s, e, id).value];
    if d :| d in s.calls && s.calls[d].id == id
            && (!Sound(Applied(Applied(s.ads[id], s.calls[d]), NewEdit(s, e, id).value))
                || !Sound(Applied(Applied(s.ads[id], NewEdit(s, e, id).value), s.calls[d])))
    {
      assert calls[d] == s.calls[d] && calls[e.c].id == id;
    }
  }

  /** No edit is in flight for a listing that was never created, and nothing in flight can mismatch this one. */
  ghost predicate Safe(s: Sys, id: AdId) {
    && (forall c | c in s.calls :: s.calls[c].id in s.ads)
    && (id in s.ads ==> PairsSound(s.ads[id], s.calls, id))
  }

  lemma StepSafeIff(s: Sys, e: Event, id: AdId)
    requires Safe(s, id)
    ensures Safe(Step(s, e), id) <==> !Clashes(s, e, id)
  {
    if id !in s.ads {
      if e.Create? && Validated(e.category, e.attributes).Ok? { AcceptedIsStorable(e.category, e.attributes); }
    } else if NewEdit(s, e, id).Some? {
      NewEditKeepsPairsIff(s, e, id);
    } else {
      QuietKeepsPairs(s, e, id);
    }
  }

  lemma QuietKeepsPairs(s: Sys, e: Event, id: AdId)
    requires id in s.ads && PairsSound(s.ads[id], s.calls, id) && NewEdit(s, e, id).None?
    ensures id in Step(s, e).ads && PairsSound(Step(s, e).ads[id], Step(s, e).calls, id)
  {
    if !Starts(e, id) { StepKeepsPairs(s, e, id); } else { assert Step(s, e) == s; }
  }

  ghost predicate AlwaysSafe(es: seq<Event>, id: AdId) {
    (es == [] || AlwaysSafe(es[..|es| - 1], id)) && Safe(Run(EMPTY, es), id)
  }

  ghost predicate NoClash(es: seq<Event>, id: AdId) {
    es == [] || (NoClash(es[..|es| - 1], id) && !Clashes(Run(EMPTY, es[..|es| - 1]), es[|es| - 1], id))
  }

  /**
   All along a run the stored details of a listing fit its category, and no
   edit in flight can change that, if and only if no edit of it is let through
   that clashes with one still in flight.
   */
  lemma {:induction false} DetailsFitIff(es: seq<Event>, id: AdId)
    ensures AlwaysSafe(es, id) <==> NoClash(es, id)
  {
    if es != [] {
      var rest := es[..|es| - 1];
      DetailsFitIff(rest, id);
      if AlwaysSafe(rest, id) {
        assert Safe(Run(EMPTY, rest), id);
        StepSafeIff(Run(EMPTY, rest), es[|es| - 1], id);
      }
    }
  }

  function Bare(category: string): Listing {
    Listing(7, "", category, None, false)
  }

  function Fill(bag: Bag): Patch {
    Patch(None, None, Some(Obj(bag)))
  }

  function MoveTo(category: string): Patch {
    Patch(None, Some(category), None)
  }

  lemma BothPrepared(was: string, next: string, bag: Bag)
    requires Storable(was, Some(bag)) && next != was
    ensures Prepared(Bare(was), 1, Fill(bag)) == Ok(Edit(1, None, None, Some(Some(bag))))
    ensures Prepared(Bare(was), 1, MoveTo(next)) == Ok(Edit(1, None, Some(next), Some(None)))
  {
    StorableIffStable(was, Some(bag));
  }

  lemma TwoEditsPrepared(was: string, next: string, bag: Bag) returns (es: seq<Event>)
    requires Storable(was, Some(bag)) && next != was
    ensures Run(EMPTY, es) == Sys(map[1 := Bare(was)],
              map[0 := Edit(1, None, None, Some(Some(bag))), 2 := Edit(1, None, Some(next), Some(None))])
  {
    BothPrepared(was, next, bag);
    es := Then([], Create(1, 7, "", was, None));
    assert Run(EMPTY, es) == Sys(map[1 := Bare(was)], map[]);
    es := Then(es, Update(0, 7, 1, Fill(bag), false));
    es := Then(es, Update(2, 7, 1, MoveTo(next), false));
  }

  /**
   Without that it can fail, between any two categories: one edit fills in the
   details of the first, another moves the listing to the second, and the
   first edit, checked before and written after, leaves details that do not
   belong to the category.
   */
  lemma OvertakenEditsCanMismatch(was: string, next: string) returns (es: seq<Event>)
    requires SchemaOf(was).Some? && next != was
    ensures 1 in Run(EMPTY, es).ads && Run(EMPTY, es).ads[1].category == next && !Sound(Run(EMPTY, es).ads[1])
  {
    var bag := [Telltale(was)];
    TelltaleTells(was, was);
    TelltaleTells(was, next);
    es := TwoEditsPrepared(was, next, bag);
    es := Then(es, Written(2));
    assert Run(EMPTY, es).ads == map[1 := Bare(next)];
    es := Then(es, Written(0));
    assert Run(EMPTY, es).ads[1] == Bare(next).(attributes := Some(bag));
  }
}
