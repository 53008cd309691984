/** The passcode service in figures: how long a code lasts, how many guesses it takes, and when another can be asked for. */
module OtpLaws {
  import opened Common
  import opened OtpProtocol
  import opened OtpRuns

  function WrongGuesses(more: seq<Event>, phone: Phone, code: string): nat {
    if more == [] then 0
    else
      var e := more[|more| - 1];
      WrongGuesses(more[..|more| - 1], phone, code) +
      if e.Verifying? && e.phone == phone && e.guess != code then 1 else 0
  }

  /** Nothing in [more] asks for another code of [phone] or gives the right one. */
  predicate NothingEndsIt(more: seq<Event>, phone: Phone, code: string) {
    forall e | e in more :: e.Waiting? || e.phone != phone || (e.Verifying? && e.guess != code)
  }

  /** The code a phone is issued: the fixed one for a test phone, the drawn one for any other. */
  function CodeFor(cfg: Config, phone: Phone, drawn: string): string {
    if phone in cfg.testPhones then cfg.testCode else drawn
  }

  function AllOf(es: seq<Event>, phone: Phone, drawn: string, sent: bool, more: seq<Event>): seq<Event> {
    es + [Issuing(phone, drawn, sent)] + more
  }

  predicate Stands(cfg: Config, h: Option<Issued>, code: string, at: int, now: int, wrong: nat) {
    && h.Some? && h.value.code == code && h.value.at == at && !h.value.used
    && (now < at + cfg.ttl ==> h.value.wrong == if wrong < 5 then wrong else 5)
  }

  lemma EventLetsStand(cfg: Config, h: Option<Issued>, code: string, at: int, now: int, wrong: nat, e: Event, phone: Phone)
    requires Stands(cfg, h, code, at, now, wrong) && code != "" && NothingEndsIt([e], phone, code)
    ensures Stands(cfg, Track(cfg, h, now, e, phone), code, at, if e.Waiting? then now + e.seconds else now,
                   if e.Verifying? && e.phone == phone && e.guess != code then wrong + 1 else wrong)
  {
    assert e in [e];
  }

  lemma {:induction false} AfterDelivery(
      cfg: Config, es: seq<Event>, phone: Phone, drawn: string, sent: bool, more: seq<Event>)
    requires cfg.Valid() && Issue(cfg, Run(cfg, es), phone, drawn, sent).1.Ok? && CodeFor(cfg, phone, drawn) != ""
    requires NothingEndsIt(more, phone, CodeFor(cfg, phone, drawn))
    ensures var all, wrong := AllOf(es, phone, drawn, sent, more), WrongGuesses(more, phone, CodeFor(cfg, phone, drawn));
            && Elapsed(all) == Elapsed(es) + Elapsed(more)
            && Stands(cfg, History(cfg, all, phone), CodeFor(cfg, phone, drawn), Elapsed(es), Elapsed(all), wrong)
  {
    var all := AllOf(es, phone, drawn, sent, more);
    if more == [] {
      assert all[..|all| - 1] == es;
      IssueAnswers(cfg, es, phone, drawn, sent);
    } else {
      var rest := more[..|more| - 1];
      assert all[..|all| - 1] == AllOf(es, phone, drawn, sent, rest);
      var e, code := more[|more| - 1], CodeFor(cfg, phone, drawn);
      assert e in more && all[|all| - 1] == e;
      AfterDelivery(cfg, es, phone, drawn, sent, rest);
      var before := AllOf(es, phone, drawn, sent, rest);
      EventLetsStand(cfg, History(cfg, before, phone), code, Elapsed(es), Elapsed(before),
                     WrongGuesses(rest, phone, code), e, phone);
    }
  }

  /**
   A delivered code that has not been used or replaced signs in, whatever else
   happens, exactly while less than its lifetime has passed and fewer than five
   wrong guesses were made of it.
   */
  lemma CodeLastsFor(cfg: Config, es: seq<Event>, phone: Phone, drawn: string, sent: bool, more: seq<Event>)
    requires cfg.Valid() && Issue(cfg, Run(cfg, es), phone, drawn, sent).1.Ok? && CodeFor(cfg, phone, drawn) != ""
    requires NothingEndsIt(more, phone, CodeFor(cfg, phone, drawn))
    ensures var code := CodeFor(cfg, phone, drawn);
            Verify(Run(cfg, AllOf(es, phone, drawn, sent, more)), phone, code).1.Ok?
            <==> Elapsed(more) < cfg.ttl && WrongGuesses(more, phone, code) < 5
  {
    AfterDelivery(cfg, es, phone, drawn, sent, more);
    VerifyAnswers(cfg, AllOf(es, phone, drawn, sent, more), phone, CodeFor(cfg, phone, drawn));
  }

  /** The fifth wrong guess in time says so; those before it are merely wrong; and any later one finds no code. */
  lemma WrongGuessesAnswer(
      cfg: Config, es: seq<Event>, phone: Phone, drawn: string, sent: bool, more: seq<Event>, guess: string)
    requires cfg.Valid() && Issue(cfg, Run(cfg, es), phone, drawn, sent).1.Ok? && CodeFor(cfg, phone, drawn) != ""
    requires NothingEndsIt(more, phone, CodeFor(cfg, phone, drawn)) && guess != CodeFor(cfg, phone, drawn)
    ensures var wrong := WrongGuesses(more, phone, CodeFor(cfg, phone, drawn));
            Verify(Run(cfg, AllOf(es, phone, drawn, sent, more)), phone, guess).1 ==
            if Elapsed(more) >= cfg.ttl || wrong >= 5 then Err(ExpiredOrNotRequested)
            else if wrong == 4 then Err(TooManyAttempts) else Err(InvalidOtp)
  {
    AfterDelivery(cfg, es, phone, drawn, sent, more);
    VerifyAnswers(cfg, AllOf(es, phone, drawn, sent, more), phone, guess);
  }

  /** Another code is refused, with the seconds to wait, exactly while less than the cooldown has passed. */
  lemma AskingAgain(
      cfg: Config, es: seq<Event>, phone: Phone, drawn: string, sent: bool, more: seq<Event>, again: string)
    requires cfg.Valid() && Issue(cfg, Run(cfg, es), phone, drawn, sent).1.Ok? && CodeFor(cfg, phone, drawn) != ""
    requires NothingEndsIt(more, phone, CodeFor(cfg, phone, drawn))
    ensures Issue(cfg, Run(cfg, AllOf(es, phone, drawn, sent, more)), phone, again, true).1 ==
            if Elapsed(more) < cfg.cooldown then Err(PleaseWait(cfg.cooldown - Elapsed(more))) else Ok(cfg.cooldown)
  {
    AfterDelivery(cfg, es, phone, drawn, sent, more);
    IssueAnswers(cfg, AllOf(es, phone, drawn, sent, more), phone, again, true);
  }

  /** A phone's code is delivered without a message if it is a test phone, and else exactly if the message went. */
  lemma FirstCode(cfg: Config, phone: Phone, drawn: string, sent: bool)
    requires cfg.Valid()
    ensures Issue(cfg, EMPTY, phone, drawn, sent).1 ==
            if phone in cfg.testPhones || sent then Ok(cfg.cooldown) else Err(NotDelivered)
  {
    IssueAnswers(cfg, [], phone, drawn, sent);
    assert Run(cfg, []) == EMPTY;
  }
}
