/**
 The bounded provider retry policy (internal/providerretry/policy.go).

 An instant is a clock reading: its whole second and whether a fraction follows.
 Every bound it is compared with is a whole second, so nothing else about the fraction matters.
 */
module RetryPolicy {
  import opened Common

  const DAY := 86400
  const MAX_PROVIDER_WAIT := 7 * DAY
  const MAX_ATTEMPTS := 6

  datatype Instant = Instant(sec: int, frac: bool) {
    // Truncation to seconds, as the timestamp layout prints it.
    function Floor(): Stamp { sec }
    // Rounding up: a provider is never contacted earlier than it asked.
    function Ceil(): Stamp { if frac then sec + 1 else sec }
  }

  datatype Retry = Retry(attempts: int, lastAt: Stamp, notBefore: Stamp)

  datatype Hint = Hint(notBefore: Option<Instant>, blocked: bool)

  const FRESH := Retry(0, NONE, NONE)

  predicate Canonical(s: Stamp) {
    YEAR_2020 <= s < YEAR_2101
  }

  predicate ClockInRange(now: Instant) {
    YEAR_2020 <= now.sec < YEAR_2101
  }

  predicate Valid(s: Retry) {
    if s.attempts == 0 then
      s.lastAt == NONE && s.notBefore == NONE
    else
      && 0 < s.attempts <= MAX_ATTEMPTS
      && Canonical(s.lastAt) && Canonical(s.notBefore)
      && s.lastAt < s.notBefore <= s.lastAt + MAX_PROVIDER_WAIT
  }

  predicate Ready(s: Retry, now: Instant) {
    && Valid(s) && ClockInRange(now) && s.attempts < MAX_ATTEMPTS
    && (s.attempts == 0 || (s.lastAt <= now.sec && s.notBefore <= now.sec))
  }

  function Backoff(attempts: nat): (delay: int)
    ensures delay >= 30
  {
    if attempts == 0 then 30 else 2 * Backoff(attempts - 1)
  }

  function Begin(s: Retry, now: Instant, jitter: int): (next: Option<Retry>)
  {
    if !Ready(s, now) || jitter < 0 || jitter > 30 then
      None
    else
      var at := Instant(now.sec + Backoff(s.attempts) + jitter, now.frac);
      var next := Retry(s.attempts + 1, now.Floor(), at.Ceil());
      if Valid(next) then Some(next) else None
  }

  /** A provider's answer can only lengthen the wait, never past seven days from the attempt. */
  function Apply(s: Retry, h: Hint): (next: Option<Retry>)
    ensures next.Some? ==>
              && Valid(next.value)
              && next.value.attempts == s.attempts && next.value.lastAt == s.lastAt
              && s.notBefore <= next.value.notBefore
              && (h.notBefore.Some? ==> h.notBefore.value.sec <= next.value.notBefore)
  {
    if !Valid(s) || s.attempts == 0 || h.blocked then
      None
    else if h.notBefore.None? then
      Some(s)
    else
      var bound := h.notBefore.value.Ceil();
      if !Canonical(bound) || bound - s.lastAt > MAX_PROVIDER_WAIT then None
      else if s.notBefore < bound then Some(s.(notBefore := bound))
      else Some(s)
  }

  // ---- Whole lives of one policy ----

  datatype Event = Attempt(now: Instant, jitter: int) | Answer(hint: Hint)

  /** The policy after a list of attempts and answers, with the start of every granted attempt.
      A refused event leaves both unchanged. */
  function Life(events: seq<Event>): (r: (Retry, seq<Stamp>))
  {
    if events == [] then (FRESH, []) else
    var (s, starts) := Life(events[..|events| - 1]);
    match events[|events| - 1]
    case Attempt(now, jitter) =>
      var next := Begin(s, now, jitter);
      if next.Some? then (next.value, starts + [next.value.lastAt]) else (s, starts)
    case Answer(hint) =>
      var next := Apply(s, hint);
      if next.Some? then (next.value, starts) else (s, starts)
  }

  /** Whatever the clock and the provider do, at most six attempts are ever granted, the count on
      record is exact, and attempt k+1 starts no earlier than the exponential wait after attempt k. */
  lemma {:induction false} AttemptsAreBoundedAndSpaced(events: seq<Event>)
    ensures var (s, starts) := Life(events);
            && Valid(s) && |starts| == s.attempts <= MAX_ATTEMPTS
            && (starts != [] ==> starts[|starts| - 1] == s.lastAt
                                 && s.notBefore >= s.lastAt + Backoff(|starts| - 1))
            && forall k: nat | k + 1 < |starts| :: starts[k] + Backoff(k) <= starts[k + 1]
  {
    if events != [] {
      AttemptsAreBoundedAndSpaced(events[..|events| - 1]);
    }
  }
}
