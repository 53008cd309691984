/** What a phone can get out of the passcode service, over every run. */
module OtpRuns {
  import opened Common
  import opened OtpProtocol

  // ── a simple machine ──

  /** The last code delivered to a phone: when, how often it was guessed wrong, and whether it was used. */
  datatype Issued = Issued(code: string, at: int, wrong: nat, used: bool)

  predicate Usable(cfg: Config, i: Issued, now: int) {
    i.code != "" && !i.used && i.wrong < MAX_ATTEMPTS && now < i.at + cfg.ttl
  }

  predicate Blocked(cfg: Config, h: Option<Issued>, now: int) {
    h.Some? && now < h.value.at + cfg.cooldown
  }

  /** What one call makes of the last code of [phone]. */
  function Track(cfg: Config, h: Option<Issued>, now: int, e: Event, phone: Phone): Option<Issued> {
    match e
    case Issuing(p, drawn, sent) =>
      if p != phone || Blocked(cfg, h, now) then h
      else if p in cfg.testPhones then Some(Issued(cfg.testCode, now, 0, false))
      else if sent then Some(Issued(drawn, now, 0, false))
      else None
    case Verifying(p, guess) =>
      if p != phone || h.None? || !Usable(cfg, h.value, now) then h
      else if guess == h.value.code then Some(h.value.(used := true))
      else Some(h.value.(wrong := h.value.wrong + 1))
    case Waiting(_) => h
  }

  function History(cfg: Config, es: seq<Event>, phone: Phone): Option<Issued> {
    if es == [] then None
    else Track(cfg, History(cfg, es[..|es| - 1], phone), Elapsed(es[..|es| - 1]), es[|es| - 1], phone)
  }

  // ── the service is that machine ──

  function Row(r: Redis, key: Key): Option<Entry> {
    if key in r.entries then Some(r.entries[key]) else None
  }

  /** A code that neither was used nor ran out of guesses, whether or not its time is up. */
  predicate Open(h: Option<Issued>) {
    h.Some? && !h.value.used && h.value.wrong < MAX_ATTEMPTS
  }

  /** The store holds, of a phone, exactly what the simple machine knows. */
  predicate Shows(cfg: Config, r: Redis, phone: Phone, h: Option<Issued>) {
    && Row(r, CodeKey(phone)) ==
       (if Open(h) then Some(Entry(Text(h.value.code), Some(h.value.at + cfg.ttl))) else None)
    && Row(r, CooldownKey(phone)) ==
       (if h.Some? then Some(Entry(Text("1"), Some(h.value.at + cfg.cooldown))) else None)
    && Row(r, AttemptsKey(phone)) ==
       (if Open(h) && h.value.wrong > 0 then Some(Entry(Number(h.value.wrong), None)) else None)
  }

  lemma IssueShows(cfg: Config, r: Redis, phone: Phone, drawn: string, sent: bool, h: Option<Issued>)
    requires cfg.Valid() && Shows(cfg, r, phone, h)
    ensures Shows(cfg, Issue(cfg, r, phone, drawn, sent).0, phone, Track(cfg, h, r.now, Issuing(phone, drawn, sent), phone))
  {
    assert Row(r, CooldownKey(phone)).Some? <==> h.Some?;
  }

  lemma VerifyShows(cfg: Config, r: Redis, phone: Phone, guess: string, h: Option<Issued>)
    requires cfg.Valid() && Shows(cfg, r, phone, h)
    ensures Shows(cfg, Verify(r, phone, guess).0, phone, Track(cfg, h, r.now, Verifying(phone, guess), phone))
  {
    assert Row(r, CodeKey(phone)).Some? <==> Open(h);
    assert Row(r, AttemptsKey(phone)).Some? <==> Open(h) && h.value.wrong > 0;
  }

  /** A call about one phone leaves the keys of every other alone. */
  lemma OthersUntouched(cfg: Config, r: Redis, e: Event, phone: Phone)
    requires e.Waiting? || e.phone != phone
    ensures var v := Call(cfg, r, e).0;
            forall key | key in {CodeKey(phone), CooldownKey(phone), AttemptsKey(phone)} :: Row(v, key) == Row(r, key)
  {
  }

  lemma CallShows(cfg: Config, r: Redis, e: Event, phone: Phone, h: Option<Issued>)
    requires cfg.Valid() && Shows(cfg, r, phone, h)
    ensures Shows(cfg, Call(cfg, r, e).0, phone, Track(cfg, h, r.now, e, phone))
  {
    if e.Waiting? || e.phone != phone { OthersUntouched(cfg, r, e, phone); }
    else if e.Issuing? { IssueShows(cfg, r, phone, e.drawn, e.sent, h); }
    else { VerifyShows(cfg, r, phone, e.guess, h); }
  }

  /** After any run the store holds of every phone what the simple machine knows of it. */
  lemma {:induction false} StoreRefines(cfg: Config, es: seq<Event>, phone: Phone)
    requires cfg.Valid()
    ensures Run(cfg, es).now == Elapsed(es)
    ensures Shows(cfg, Run(cfg, es), phone, History(cfg, es, phone))
  {
    if es != [] {
      StoreRefines(cfg, es[..|es| - 1], phone);
      CallShows(cfg, Run(cfg, es[..|es| - 1]), es[|es| - 1], phone, History(cfg, es[..|es| - 1], phone));
    }
  }

  lemma CooldownShows(cfg: Config, es: seq<Event>, phone: Phone)
    requires cfg.Valid()
    ensures var h, left := History(cfg, es, phone), Ttl(Run(cfg, es), CooldownKey(phone));
            if Blocked(cfg, h, Elapsed(es)) then left == h.value.at + cfg.cooldown - Elapsed(es) else left <= 0
  {
    StoreRefines(cfg, es, phone);
    assert Row(Run(cfg, es), CooldownKey(phone)).Some? <==> History(cfg, es, phone).Some?;
  }

  /** Asking for a code is refused exactly during the cooldown of the last delivered one, with the time left. */
  lemma IssueAnswers(cfg: Config, es: seq<Event>, phone: Phone, drawn: string, sent: bool)
    requires cfg.Valid()
    ensures var h := History(cfg, es, phone);
            Issue(cfg, Run(cfg, es), phone, drawn, sent).1 ==
            if Blocked(cfg, h, Elapsed(es)) then Err(PleaseWait(h.value.at + cfg.cooldown - Elapsed(es)))
            else if phone in cfg.testPhones || sent then Ok(cfg.cooldown)
            else Err(NotDelivered)
  {
    CooldownShows(cfg, es, phone);
  }

  /**
   A guess signs in exactly when it is the last code delivered to the phone,
   in time, not used before, and guessed wrong fewer than five times.
   */
  lemma VerifyAnswers(cfg: Config, es: seq<Event>, phone: Phone, guess: string)
    requires cfg.Valid()
    ensures var h := History(cfg, es, phone);
            Verify(Run(cfg, es), phone, guess).1 ==
            if h.None? || !Usable(cfg, h.value, Elapsed(es)) then Err(ExpiredOrNotRequested)
            else if guess == h.value.code then Ok(0)
            else if h.value.wrong + 1 >= MAX_ATTEMPTS then Err(TooManyAttempts)
            else Err(InvalidOtp)
  {
    StoreRefines(cfg, es, phone);
    var r, h := Run(cfg, es), History(cfg, es, phone);
    assert Row(r, CodeKey(phone)).Some? <==> Open(h);
    assert Row(r, AttemptsKey(phone)).Some? <==> Open(h) && h.value.wrong > 0;
  }

  /** A stored code has fewer than five recorded failures. */
  lemma StoredCodeHasGuessesLeft(cfg: Config, es: seq<Event>, phone: Phone)
    requires cfg.Valid() && CodeKey(phone) in Run(cfg, es).entries
    ensures Count(Run(cfg, es), AttemptsKey(phone)) < 5
  {
    StoreRefines(cfg, es, phone);
    assert Row(Run(cfg, es), AttemptsKey(phone)).Some? <==> AttemptsKey(phone) in Run(cfg, es).entries;
    assert Row(Run(cfg, es), CodeKey(phone)).Some?;
  }

  /** An issue whose message was not sent leaves no code, no cooldown and no failures. */
  lemma FailedSmsLeavesNothing(cfg: Config, r: Redis, phone: Phone, drawn: string)
    requires Issue(cfg, r, phone, drawn, false).1 == Err(NotDelivered)
    ensures var v := Issue(cfg, r, phone, drawn, false).0;
            && v.entries == r.entries - {CodeKey(phone), CooldownKey(phone), AttemptsKey(phone)}
            && forall again, sent :: Issue(cfg, v, phone, again, sent).1.Err? ==> !sent && phone !in cfg.testPhones
  {
  }

  // ── the guess budget ──

  predicate Compares(r: Redis, e: Event, phone: Phone) {
    e.Verifying? && e.phone == phone && Verify(r, phone, e.guess).1 != Err(ExpiredOrNotRequested)
  }

  predicate Delivers(cfg: Config, r: Redis, e: Event, phone: Phone) {
    e.Issuing? && e.phone == phone && Call(cfg, r, e).1.Ok?
  }

  predicate SignsIn(r: Redis, e: Event, phone: Phone) {
    e.Verifying? && e.phone == phone && Verify(r, phone, e.guess).1.Ok?
  }

  /** How often a guess for [phone] was compared with a stored code. */
  function Comparisons(cfg: Config, es: seq<Event>, phone: Phone): nat {
    if es == [] then 0
    else Comparisons(cfg, es[..|es| - 1], phone) +
         if Compares(Run(cfg, es[..|es| - 1]), es[|es| - 1], phone) then 1 else 0
  }

  function Deliveries(cfg: Config, es: seq<Event>, phone: Phone): nat {
    if es == [] then 0
    else Deliveries(cfg, es[..|es| - 1], phone) +
         if Delivers(cfg, Run(cfg, es[..|es| - 1]), es[|es| - 1], phone) then 1 else 0
  }

  function SignIns(cfg: Config, es: seq<Event>, phone: Phone): nat {
    if es == [] then 0
    else SignIns(cfg, es[..|es| - 1], phone) +
         if SignsIn(Run(cfg, es[..|es| - 1]), es[|es| - 1], phone) then 1 else 0
  }

  /** The guesses the current code still takes. */
  function Left(h: Option<Issued>): nat {
    if Open(h) then MAX_ATTEMPTS - h.value.wrong else 0
  }

  /** Every delivered code buys five comparisons and one sign-in, and no more. */
  lemma {:induction false} DeliveriesPay(cfg: Config, es: seq<Event>, phone: Phone)
    requires cfg.Valid()
    ensures var h := History(cfg, es, phone);
            && Comparisons(cfg, es, phone) + Left(h) <= MAX_ATTEMPTS * Deliveries(cfg, es, phone)
            && SignIns(cfg, es, phone) + (if Open(h) then 1 else 0) <= Deliveries(cfg, es, phone)
  {
    if es != [] {
      DeliveriesPay(cfg, es[..|es| - 1], phone);
      match es[|es| - 1]
      case Issuing(p, drawn, sent) => IssueAnswers(cfg, es[..|es| - 1], p, drawn, sent);
      case Verifying(p, guess) => VerifyAnswers(cfg, es[..|es| - 1], p, guess);
      case Waiting(_) =>
    }
  }

  /** [n] deliveries to one phone, the last of them at [at] if it stands, are at least a cooldown apart. */
  predicate Apart(cfg: Config, n: int, h: Option<Issued>, now: int) {
    if h.None? then n * cfg.cooldown <= now else (n - 1) * cfg.cooldown <= h.value.at <= now
  }

  lemma TrackKeepsApart(cfg: Config, n: int, h: Option<Issued>, now: int, e: Event, phone: Phone)
    requires cfg.Valid() && Apart(cfg, n, h, now)
    ensures var next := Track(cfg, h, now, e, phone);
            var delivered := e.Issuing? && e.phone == phone && !Blocked(cfg, h, now) && (phone in cfg.testPhones || e.sent);
            Apart(cfg, if delivered then n + 1 else n, next, if e.Waiting? then now + e.seconds else now)
  {
    assert n * cfg.cooldown == (n - 1) * cfg.cooldown + cfg.cooldown;
  }

  /** Deliveries to one phone are at least a cooldown apart. */
  lemma {:induction false} DeliveriesTakeTime(cfg: Config, es: seq<Event>, phone: Phone)
    requires cfg.Valid()
    ensures Apart(cfg, Deliveries(cfg, es, phone), History(cfg, es, phone), Elapsed(es))
  {
    if es != [] {
      var rest, e := es[..|es| - 1], es[|es| - 1];
      DeliveriesTakeTime(cfg, rest, phone);
      TrackKeepsApart(cfg, Deliveries(cfg, rest, phone), History(cfg, rest, phone), Elapsed(rest), e, phone);
      if e.Issuing? { IssueAnswers(cfg, rest, e.phone, e.drawn, e.sent); }
    }
  }

  lemma TimesKeepsOrder(a: int, b: int, d: int)
    requires a <= b && d >= 0
    ensures a * d <= b * d
  {
  }

  lemma AtMostQuotient(n: int, d: int, t: int)
    requires d >= 1 && t >= 0 && n * d <= t
    ensures n <= t / d
  {
    if n >= t / d + 1 { TimesKeepsOrder(t / d + 1, n, d); }
  }

  /** Over any run of T seconds from an empty store, a phone gets at most T / cooldown + 1 codes. */
  lemma DeliveryBudget(cfg: Config, es: seq<Event>, phone: Phone)
    requires cfg.Valid()
    ensures Deliveries(cfg, es, phone) <= Elapsed(es) / cfg.cooldown + 1
  {
    DeliveriesTakeTime(cfg, es, phone);
    var n: int := Deliveries(cfg, es, phone);
    TimesKeepsOrder(n - 1, n, cfg.cooldown);
    AtMostQuotient(n - 1, cfg.cooldown, Elapsed(es));
  }

  /** And so at most 5 * (T / cooldown + 1) code comparisons, and no more sign-ins than codes. */
  lemma GuessBudget(cfg: Config, es: seq<Event>, phone: Phone)
    requires cfg.Valid()
    ensures Comparisons(cfg, es, phone) <= 5 * (Elapsed(es) / cfg.cooldown + 1)
    ensures SignIns(cfg, es, phone) <= Deliveries(cfg, es, phone)
  {
    DeliveriesPay(cfg, es, phone);
    DeliveryBudget(cfg, es, phone);
  }

  /** Once a code has signed someone in, nothing signs in until another code is delivered. */
  lemma CodeSignsInOnce(cfg: Config, es: seq<Event>, more: seq<Event>, phone: Phone, guess: string)
    requires cfg.Valid() && Verify(Run(cfg, es), phone, guess).1.Ok?
    requires forall e | e in more :: e.Issuing? ==> e.phone != phone
    ensures History(cfg, es + [Verifying(phone, guess)] + more, phone).Some?
    ensures !Open(History(cfg, es + [Verifying(phone, guess)] + more, phone))
    ensures forall again :: Verify(Run(cfg, es + [Verifying(phone, guess)] + more), phone, again).1.Err?
    decreases |more|
  {
    var used := es + [Verifying(phone, guess)];
    var all := used + more;
    if more == [] {
      assert all == used && used[..|used| - 1] == es;
      VerifyAnswers(cfg, es, phone, guess);
    } else {
      assert all[..|all| - 1] == used + more[..|more| - 1];
      CodeSignsInOnce(cfg, es, more[..|more| - 1], phone, guess);
    }
    forall again ensures Verify(Run(cfg, all), phone, again).1.Err? { VerifyAnswers(cfg, all, phone, again); }
  }
}
