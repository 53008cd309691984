/** The passcode service over a store updated in place, by the store's own commands. */
module OtpBackend {
  import opened Common
  import opened OtpProtocol

  class OtpService {
    const cfg: Config
    var entries: map<Key, Entry>
    var now: int

    function Store(): Redis
      reads this
    {
      Redis(entries, now)
    }

    constructor (cfg: Config)
      ensures this.cfg == cfg && Store() == EMPTY
    {
      this.cfg := cfg;
      entries, now := map[], 0;
    }

    method SetKey(key: Key, value: Value, seconds: int)
      modifies this`entries
      ensures Store() == OtpProtocol.Set(old(Store()), key, value, seconds)
    {
      entries := entries[key := Entry(value, Some(now + seconds))];
    }

    method DeleteKey(key: Key)
      modifies this`entries
      ensures Store() == Del(old(Store()), {key})
    {
      entries := entries - {key};
    }

    method Increment(key: Key) returns (count: nat)
      modifies this`entries
      ensures Store() == Incr(old(Store()), key) && count == Count(Store(), key)
    {
      var was := Get(Store(), key);
      count := (if was.Some? && was.value.Number? then was.value.number else 0) + 1;
      entries := entries[key := Entry(Number(count), if was.Some? then entries[key].expiresAt else None)];
    }

    method Wait(seconds: nat)
      modifies this`now
      ensures Store() == Call(cfg, old(Store()), Waiting(seconds)).0
    {
      now := now + seconds;
    }

    /** Three writes and a message; when the message fails, two deletes take the code and the cooldown back. */
    method Issue(phone: Phone, drawn: string, sent: bool) returns (r: Answer)
      modifies this`entries
      ensures (Store(), r) == OtpProtocol.Issue(cfg, old(Store()), phone, drawn, sent)
    {
      var left := Ttl(Store(), CooldownKey(phone));
      if left > 0 { return Err(PleaseWait(left)); }
      var isTest := phone in cfg.testPhones;
      SetKey(CodeKey(phone), Text(if isTest then cfg.testCode else drawn), cfg.ttl);
      SetKey(CooldownKey(phone), Text("1"), cfg.cooldown);
      DeleteKey(AttemptsKey(phone));
      if isTest { return Ok(cfg.cooldown); }
      if !sent {
        ghost var stored := Store();
        DeleteKey(CodeKey(phone));
        DeleteKey(CooldownKey(phone));
        assert Store() == Del(stored, {CodeKey(phone), CooldownKey(phone)});
        return Err(NotDelivered);
      }
      return Ok(cfg.cooldown);
    }

    /** Checks a guess: five wrong ones, or a right one, end the code. */
    method Verify(phone: Phone, guess: string) returns (r: Answer)
      modifies this`entries
      ensures (Store(), r) == OtpProtocol.Verify(old(Store()), phone, guess)
    {
      var stored := Get(Store(), CodeKey(phone));
      if stored.None? || stored.value.Number? || stored.value.text == "" { return Err(ExpiredOrNotRequested); }
      ghost var begin := Store();
      if stored.value.text != guess {
        var attempts := Increment(AttemptsKey(phone));
        if attempts >= MAX_ATTEMPTS {
          ghost var counted := Store();
          DeleteKey(CodeKey(phone));
          DeleteKey(AttemptsKey(phone));
          assert Store() == Del(counted, {CodeKey(phone), AttemptsKey(phone)});
          return Err(TooManyAttempts);
        }
        return Err(InvalidOtp);
      }
      DeleteKey(CodeKey(phone));
      DeleteKey(AttemptsKey(phone));
      assert Store() == Del(begin, {CodeKey(phone), AttemptsKey(phone)});
      return Ok(0);
    }
  }
}
