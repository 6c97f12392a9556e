/** The execution client's request loop and polling loop (packages/keeperhub-client/src/safe-execution.ts). */
module SafeExecutionClient {
  import opened Results

  /** What the loops read from a response; `reset` and `retryAfter` are header numbers in seconds or milliseconds. */
  datatype Response = Response(status: nat, remaining: Option<nat>, reset: Option<nat>, retryAfter: Option<nat>,
                               pollAfterMs: Option<nat>)

  datatype Sent = Sent(at: int, body: string, key: Option<string>)

  function Max(a: int, b: int): int {
    if a < b then b else a
  }

  /** Reset headers are milliseconds when they are too large to be seconds. */
  function ResetMs(reset: nat): nat {
    if reset > 10_000_000_000 then reset else reset * 1_000
  }

  /** The client-wide pause after a response: an exhausted window postpones every later request. */
  function Postponed(notBefore: int, r: Response): (next: int)
    ensures notBefore <= next
    ensures r.remaining == Some(0) && r.reset.Some? ==> ResetMs(r.reset.value) <= next
  {
    if r.remaining == Some(0) && r.reset.Some? then Max(notBefore, ResetMs(r.reset.value)) else notBefore
  }

  /** A reset time is one instant, whether it is given in seconds or in milliseconds, for every time whose milliseconds lie
      beyond the range of seconds. */
  lemma ResetIsInstant(seconds: nat)
    requires 10_000_000 < seconds <= 10_000_000_000
    ensures ResetMs(seconds) == ResetMs(1_000 * seconds) == 1_000 * seconds
  {
  }

  /** Only an exhausted window postpones, exactly to its reset time. */
  lemma PostponesIff(notBefore: int, r: Response)
    ensures Postponed(notBefore, r) > notBefore <==>
      r.remaining == Some(0) && r.reset.Some? && ResetMs(r.reset.value) > notBefore
    ensures Postponed(notBefore, r) > notBefore ==> Postponed(notBefore, r) == ResetMs(r.reset.value)
  {
  }

  /** The pause in force after the first `n` responses. */
  function PauseAfter(start: int, respond: nat -> Response, n: nat): int {
    if n == 0 then start else Postponed(PauseAfter(start, respond, n - 1), respond(n - 1))
  }

  /** Requests of one call: the same key and body each time, never before the pause then in force, spaced by the
      server's own retry delay where it gave one. */
  predicate Resends(sent: seq<Sent>, body: string, key: Option<string>, start: int, respond: nat -> Response) {
    && (forall k | 0 <= k < |sent| :: sent[k].body == body && sent[k].key == key && sent[k].at >= PauseAfter(start, respond, k))
    && (forall k | 0 <= k < |sent| - 1 ::
          respond(k).status == 429
          && sent[k + 1].at >= sent[k].at + (if respond(k).retryAfter.Some? then respond(k).retryAfter.value * 1_000 else 0))
  }

  /** The client waited as long as the last response asked before going on at time `clock`. */
  predicate Rested(sent: seq<Sent>, respond: nat -> Response, clock: int) {
    sent != [] ==>
      var last := respond(|sent| - 1);
      && last.status == 429
      && clock >= sent[|sent| - 1].at + (if last.retryAfter.Some? then last.retryAfter.value * 1_000 else 0)
  }

  lemma Resent(sent: seq<Sent>, e: Sent, start: int, respond: nat -> Response)
    requires Resends(sent, e.body, e.key, start, respond) && Rested(sent, respond, e.at)
    requires e.at >= PauseAfter(start, respond, |sent|)
    ensures Resends(sent + [e], e.body, e.key, start, respond)
  {
    hide PauseAfter;
  }

  lemma PauseGrows(start: int, respond: nat -> Response, n: nat)
    ensures PauseAfter(start, respond, n + 1) == Postponed(PauseAfter(start, respond, n), respond(n))
    ensures PauseAfter(start, respond, n + 1) >= PauseAfter(start, respond, n)
  {
  }

  lemma NothingSent(body: string, key: Option<string>, start: int, respond: nat -> Response)
    ensures Resends([], body, key, start, respond) && PauseAfter(start, respond, 0) == start
  {
  }

  class Client {
    const maxRetries: nat
    var notBefore: int
    var clock: int
    var log: seq<Sent>

    constructor (maxRetries: nat, clock: int)
      ensures this.maxRetries == maxRetries && notBefore == 0 && this.clock == clock && log == []
    {
      this.maxRetries, notBefore, this.clock, log := maxRetries, 0, clock, [];
    }

    method Sleep(ms: int)
      modifies this`clock
      ensures clock == if ms > 0 then old(clock) + ms else old(clock)
    {
      if ms > 0 {
        clock := clock + ms;
      }
    }

    /** One call: send, and while rate limited with retries left, wait and send again. `latency` is the time a
        response takes. */
    method Request(body: string, key: Option<string>, respond: nat -> Response, latency: nat -> nat)
      returns (r: Response, ghost sent: seq<Sent>)
      modifies this
      ensures log == old(log) + sent && 1 <= |sent| <= maxRetries + 1
      ensures Resends(sent, body, key, old(notBefore), respond)
      ensures notBefore == PauseAfter(old(notBefore), respond, |sent|) && old(notBefore) <= notBefore
      ensures r == respond(|sent| - 1) && (r.status == 429 ==> |sent| == maxRetries + 1)
      ensures old(clock) <= clock
    {
      hide Resends, PauseAfter, Postponed;
      var retries := 0;
      sent := [];
      NothingSent(body, key, notBefore, respond);
      while true
        invariant retries == |sent| <= maxRetries
        invariant log == old(log) + sent
        invariant Resends(sent, body, key, old(notBefore), respond)
        invariant notBefore == PauseAfter(old(notBefore), respond, |sent|) && old(notBefore) <= notBefore
        invariant Rested(sent, respond, clock) && old(clock) <= clock
        decreases maxRetries - retries
      {
        Sleep(Max(0, notBefore - clock));
        Resent(sent, Sent(clock, body, key), old(notBefore), respond);
        PauseGrows(old(notBefore), respond, |sent|);
        log := log + [Sent(clock, body, key)];
        sent := sent + [Sent(clock, body, key)];
        r := respond(retries);
        clock := clock + latency(retries);
        notBefore := Postponed(notBefore, r);
        if r.status != 429 || retries >= maxRetries {
          return;
        }
        retries := retries + 1;
        Sleep(if r.retryAfter.Some? then r.retryAfter.value * 1_000 else Max(0, notBefore - clock));
      }
    }

    /** Ask for the status until the service says it is final, at most `maxPolls` times. */
    method PollExecution(status: nat -> Response, maxPolls: nat) returns (r: Result<nat, ()>)
      modifies this`clock
      ensures r.Ok? ==> r.value < maxPolls && status(r.value).pollAfterMs == Some(0)
                        && forall k | 0 <= k < r.value :: status(k).pollAfterMs != Some(0)
      ensures r.Err? <==> forall k | 0 <= k < maxPolls :: status(k).pollAfterMs != Some(0)
    {
      var attempt := 0;
      while attempt < maxPolls
        invariant 0 <= attempt <= maxPolls
        invariant forall k | 0 <= k < attempt :: status(k).pollAfterMs != Some(0)
      {
        var evidence := status(attempt);
        if evidence.pollAfterMs == Some(0) {
          return Ok(attempt);
        }
        Sleep(evidence.pollAfterMs.GetOr(2_000));
        attempt := attempt + 1;
      }
      return Err(());
    }
  }
}
