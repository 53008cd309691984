/**
 One-time passcodes kept in a key-value store whose keys expire. Each call of
 the service is one step, time is whole seconds, and a run is the calls and the
 passing of time in order.
 */
module OtpProtocol {
  import opened Common

  type Phone = string

  const MAX_ATTEMPTS := 5

  /** How the service is configured. Both periods are at least a second. */
  datatype Config = Config(ttl: int, cooldown: int, testPhones: set<Phone>, testCode: string) {
    predicate Valid() {
      ttl >= 1 && cooldown >= 1
    }
  }

  // ── the store ──

  datatype Key = CodeKey(phone: Phone) | CooldownKey(phone: Phone) | AttemptsKey(phone: Phone)

  datatype Value = Text(text: string) | Number(number: nat)

  /** A value, and the second from which it is gone; None when it never expires. */
  datatype Entry = Entry(value: Value, expiresAt: Option<int>)

  datatype Redis = Redis(entries: map<Key, Entry>, now: int)

  const EMPTY := Redis(map[], 0)

  function Get(r: Redis, key: Key): Option<Value> {
    if key in r.entries && (r.entries[key].expiresAt.None? || r.now < r.entries[key].expiresAt.value)
    then Some(r.entries[key].value) else None
  }

  /** The seconds a key has left; not positive when it is missing or does not expire. */
  function Ttl(r: Redis, key: Key): int {
    if Get(r, key).None? then -2
    else match r.entries[key].expiresAt
         case None => -1
         case Some(at) => at - r.now
  }

  function Set(r: Redis, key: Key, value: Value, seconds: int): Redis {
    r.(entries := r.entries[key := Entry(value, Some(r.now + seconds))])
  }

  function Del(r: Redis, keys: set<Key>): Redis {
    r.(entries := r.entries - keys)
  }

  function Count(r: Redis, key: Key): nat {
    match Get(r, key)
    case Some(Number(n)) => n
    case _ => 0
  }

  /** Adds one, counting a missing key as zero and keeping what expiry the key has. */
  function Incr(r: Redis, key: Key): Redis {
    var expiresAt := if Get(r, key).Some? then r.entries[key].expiresAt else None;
    r.(entries := r.entries[key := Entry(Number(Count(r, key) + 1), expiresAt)])
  }

  // ── the service ──

  datatype Refusal = PleaseWait(seconds: int) | NotDelivered | ExpiredOrNotRequested | TooManyAttempts | InvalidOtp

  type Answer = Result<int, Refusal>

  /** [drawn] is the random code, [sent] whether the gateway took the message. */
  function Issue(cfg: Config, r: Redis, phone: Phone, drawn: string, sent: bool): (Redis, Answer) {
    var left := Ttl(r, CooldownKey(phone));
    if left > 0 then (r, Err(PleaseWait(left)))
    else
      var isTest := phone in cfg.testPhones;
      var code := if isTest then cfg.testCode else drawn;
      var stored := Del(Set(Set(r, CodeKey(phone), Text(code), cfg.ttl), CooldownKey(phone), Text("1"), cfg.cooldown),
                        {AttemptsKey(phone)});
      if isTest || sent then (stored, Ok(cfg.cooldown))
      else (Del(stored, {CodeKey(phone), CooldownKey(phone)}), Err(NotDelivered))
  }

  function Verify(r: Redis, phone: Phone, guess: string): (Redis, Answer) {
    match Get(r, CodeKey(phone))
    case Some(Text(code)) =>
      if code == "" then (r, Err(ExpiredOrNotRequested))
      else if code != guess then
        var counted := Incr(r, AttemptsKey(phone));
        if Count(counted, AttemptsKey(phone)) >= MAX_ATTEMPTS
        then (Del(counted, {CodeKey(phone), AttemptsKey(phone)}), Err(TooManyAttempts))
        else (counted, Err(InvalidOtp))
      else (Del(r, {CodeKey(phone), AttemptsKey(phone)}), Ok(0))
    case _ => (r, Err(ExpiredOrNotRequested))
  }

  // ── runs ──

  datatype Event =
    | Issuing(phone: Phone, drawn: string, sent: bool)
    | Verifying(phone: Phone, guess: string)
    | Waiting(seconds: nat)

  function Call(cfg: Config, r: Redis, e: Event): (Redis, Answer) {
    match e
    case Issuing(phone, drawn, sent) => Issue(cfg, r, phone, drawn, sent)
    case Verifying(phone, guess) => Verify(r, phone, guess)
    case Waiting(seconds) => (r.(now := r.now + seconds), Ok(seconds))
  }

  function Run(cfg: Config, es: seq<Event>): Redis {
    if es == [] then EMPTY else Call(cfg, Run(cfg, es[..|es| - 1]), es[|es| - 1]).0
  }

  function Elapsed(es: seq<Event>): nat {
    if es == [] then 0
    else Elapsed(es[..|es| - 1]) + if es[|es| - 1].Waiting? then es[|es| - 1].seconds else 0
  }
}
