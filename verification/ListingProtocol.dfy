/**
 Marketplace listings, with an edit as the two steps it is: the listing is read
 and the edit prepared against it, and the prepared edit is written later.
 */
module ListingProtocol {
  import opened Common
  import opened AdAttributes

  type AdId = nat
  type UserId = nat
  type CallId = nat

  datatype Listing = Listing(seller: UserId, title: string, category: string, attributes: Option<Bag>, deleted: bool)

  /** What an edit asks for: only what is given changes, and null details clear them. */
  datatype Patch = Patch(title: Option<string>, category: Option<string>, attributes: Option<Json>)

  /** What a prepared edit will write. */
  datatype Edit = Edit(id: AdId, title: Option<string>, category: Option<string>, attributes: Option<Option<Bag>>)

  datatype Refusal = NotFound | NotYours | Invalid(problems: seq<Problem>)

  datatype Sys = Sys(ads: map<AdId, Listing>, calls: map<CallId, Edit>)

  const EMPTY := Sys(map[], map[])

  datatype Event =
    | Create(id: AdId, seller: UserId, title: string, category: string, attributes: Option<Json>)
    | Remove(user: UserId, id: AdId, moderates: bool)
    | Update(c: CallId, user: UserId, id: AdId, patch: Patch, moderates: bool)
    | Written(c: CallId)
    | Crashed(c: CallId)

  function Manageable(ads: map<AdId, Listing>, user: UserId, id: AdId, moderates: bool): Result<Listing, Refusal> {
    if id !in ads || ads[id].deleted then Err(NotFound)
    else if ads[id].seller != user && !moderates then Err(NotYours)
    else Ok(ads[id])
  }

  function Created(ads: map<AdId, Listing>, id: AdId, seller: UserId, title: string, category: string, raw: Option<Json>)
    : Result<map<AdId, Listing>, Refusal>
  {
    match Validated(category, raw)
    case Err(problems) => Err(Invalid(problems))
    case Ok(attributes) => Ok(ads[id := Listing(seller, title, category, attributes, false)])
  }

  /** New details are validated for the category after the edit; a move without new ones clears the old. */
  function Prepared(existing: Listing, id: AdId, p: Patch): Result<Edit, Refusal> {
    var category := p.category.GetOr(existing.category);
    if p.attributes.Some? then
      match Validated(category, p.attributes)
      case Err(problems) => Err(Invalid(problems))
      case Ok(attributes) => Ok(Edit(id, p.title, p.category, Some(attributes)))
    else Ok(Edit(id, p.title, p.category, if category != existing.category then Some(None) else None))
  }

  function Applied(ad: Listing, e: Edit): Listing {
    ad.(title := e.title.GetOr(ad.title), category := e.category.GetOr(ad.category),
        attributes := e.attributes.GetOr(ad.attributes))
  }

  function Write(ads: map<AdId, Listing>, e: Edit): map<AdId, Listing> {
    if e.id in ads then ads[e.id := Applied(ads[e.id], e)] else ads
  }

  function Step(s: Sys, e: Event): Sys {
    match e
    case Create(id, seller, title, category, raw) =>
      if id in s.ads || Created(s.ads, id, seller, title, category, raw).Err? then s
      else s.(ads := Created(s.ads, id, seller, title, category, raw).value)
    case Remove(user, id, moderates) =>
      if Manageable(s.ads, user, id, moderates).Err? then s
      else s.(ads := s.ads[id := s.ads[id].(deleted := true)])
    case Update(c, user, id, patch, moderates) =>
      var existing := Manageable(s.ads, user, id, moderates);
      if c in s.calls || existing.Err? || Prepared(existing.value, id, patch).Err? then s
      else s.(calls := s.calls[c := Prepared(existing.value, id, patch).value])
    case Written(c) =>
      if c !in s.calls then s else Sys(Write(s.ads, s.calls[c]), s.calls - {c})
    case Crashed(c) => s.(calls := s.calls - {c})
  }

  function Run(s: Sys, es: seq<Event>): Sys {
    if es == [] then s else Step(Run(s, es[..|es| - 1]), es[|es| - 1])
  }
}
