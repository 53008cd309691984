/** The marketplace service over a table of listings updated in place; each method is one call running alone. */
module ListingBackend {
  import opened Common
  import opened AdAttributes
  import opened ListingProtocol
  import ListingRuns

  class Marketplace {
    var ads: map<AdId, Listing>

    /** Every stored bag of details is right for the category beside it. */
    ghost predicate Valid()
      reads this
    {
      forall id | id in ads :: ListingRuns.Sound(ads[id])
    }

    constructor ()
      ensures Valid() && ads == map[]
    {
      ads := map[];
    }

    method Create(id: AdId, seller: UserId, title: string, category: string, raw: Option<Json>)
      returns (r: Result<Option<Bag>, Refusal>)
      requires Valid() && id !in ads
      modifies this
      ensures Valid()
      ensures match Created(old(ads), id, seller, title, category, raw)
              case Ok(now) => ads == now && r == Ok(now[id].attributes)
              case Err(why) => ads == old(ads) && r == Err(why)
    {
      var checked := ValidateAdAttributes(category, raw);
      if checked.Err? { return Err(Invalid(checked.error)); }
      AcceptedIsStorable(category, raw);
      ads := ads[id := Listing(seller, title, category, checked.value, false)];
      return Ok(checked.value);
    }

    /** Only what is given changes; moving to another category without details drops the old ones. */
    method Update(user: UserId, id: AdId, p: Patch, moderates: bool) returns (r: Result<Listing, Refusal>)
      requires Valid()
      modifies this
      ensures Valid()
      ensures var existing := Manageable(old(ads), user, id, moderates);
              if existing.Err? then ads == old(ads) && r == Err(existing.error)
              else match Prepared(existing.value, id, p)
                   case Err(why) => ads == old(ads) && r == Err(why)
                   case Ok(edit) => ads == Write(old(ads), edit) && r == Ok(ads[id])
    {
      if id !in ads || ads[id].deleted { return Err(NotFound); }
      var existing := ads[id];
      if existing.seller != user && !moderates { return Err(NotYours); }
      var category := p.category.GetOr(existing.category);
      var recategorised := p.category.Some? && p.category.value != existing.category;
      var attributes := if recategorised then None else existing.attributes;
      if p.attributes.Some? {
        var checked := ValidateAdAttributes(category, p.attributes);
        if checked.Err? { return Err(Invalid(checked.error)); }
        attributes := checked.value;
      }
      ListingRuns.PreparedIsSound(existing, id, p);
      ads := ads[id := existing.(title := p.title.GetOr(existing.title), category := category, attributes := attributes)];
      return Ok(ads[id]);
    }

    method Remove(user: UserId, id: AdId, moderates: bool) returns (r: Result<bool, Refusal>)
      requires Valid()
      modifies this
      ensures Valid()
      ensures var existing := Manageable(old(ads), user, id, moderates);
              if existing.Err? then ads == old(ads) && r == Err(existing.error)
              else ads == old(ads)[id := existing.value.(deleted := true)] && r == Ok(true)
    {
      if id !in ads || ads[id].deleted { return Err(NotFound); }
      if ads[id].seller != user && !moderates { return Err(NotYours); }
      ads := ads[id := ads[id].(deleted := true)];
      return Ok(true);
    }
  }
}
