/**
 * The WhatsApp connection: every call of connectToWhatsApp(retryCount) creates
 * a socket whose `connection.update` and `error` events may schedule another
 * call with retryCount + 1, after a delay the policy below chooses. The first
 * `open` resolves the connection promise with its socket; a failed credential
 * removal or a sixth setup failure rejects it. Timers are not waited on: the
 * model records the reconnections the policy schedules, and the environment
 * later delivers each one as a new Connect.
 */
module Connection {
  import opened Wrappers
  import opened Text

  /** DisconnectReason.loggedOut of the socket library. */
  const LoggedOut: int := 401

  /** The retry delays, in milliseconds. */
  const RestartDelay: nat := 5000
  const TimeoutDelay: nat := 10000
  const UnauthorizedDelay: nat := 5000
  const BackoffBase: nat := 1000
  const BackoffCap: nat := 60000
  const SetupDelayStep: nat := 3000
  const MaxSetupRetries: nat := 5

  function Pow2(n: nat): (r: nat)
    ensures r >= 1
  {
    if n == 0 then 1 else 2 * Pow2(n - 1)
  }

  lemma {:induction false} Pow2Monotone(m: nat, n: nat)
    requires m <= n
    ensures Pow2(m) <= Pow2(n)
    decreases n
  {
    if m < n {
      Pow2Monotone(m, n - 1);
    }
  }

  /** Math.min(Math.pow(2, retryCount) * 1000, 60000) */
  function Backoff(retryCount: nat): (r: nat)
    ensures BackoffBase <= r <= BackoffCap
  {
    var d := Pow2(retryCount) * BackoffBase;
    if d < BackoffCap then d else BackoffCap
  }

  /** The backoff grows with the retry count, and is capped from the seventh attempt on. */
  lemma BackoffMonotone(m: nat, n: nat)
    requires m <= n
    ensures Backoff(m) <= Backoff(n)
    ensures n >= 6 ==> Backoff(n) == BackoffCap
  {
    Pow2Monotone(m, n);
    if n >= 6 {
      Pow2Monotone(6, n);
      assert Pow2(6) == 64;
    }
  }

  /** The first backoff delays double: 1, 2, 4, 8, 16 and 32 seconds. */
  lemma BackoffDoubles(n: nat)
    requires n < 5
    ensures Backoff(n + 1) == 2 * Backoff(n)
  {
    Pow2Monotone(n, 4);
    assert Pow2(4) == 16;
  }

  /** What a close event leads to. */
  datatype CloseAction =
    | ClearAndRetryNow
    | RetryAfter(delay: nat)
    | NoRetry

  /**
   * The close classification for `lastDisconnect?.error?.output?.statusCode`
   * (None when any link of the chain is missing); a code of 0 is falsy.
   */
  function ClassifyClose(statusCode: Option<int>, retryCount: nat): (a: CloseAction)
    ensures a.RetryAfter? ==> a.delay <= BackoffCap
    ensures a.NoRetry? <==> statusCode.None? || statusCode == Some(0)
  {
    match statusCode
    case None => NoRetry
    case Some(code) =>
      if code == LoggedOut || code == 401 then ClearAndRetryNow
      else if code == 515 then RetryAfter(RestartDelay)
      else if code == 440 then RetryAfter(TimeoutDelay)
      else if code != 0 then RetryAfter(Backoff(retryCount))
      else NoRetry
  }

  /** Each branch of the classification. */
  lemma ClassifyCloseSpec(statusCode: Option<int>, retryCount: nat)
    ensures statusCode == Some(401) ==> ClassifyClose(statusCode, retryCount) == ClearAndRetryNow
    ensures statusCode == Some(515) ==> ClassifyClose(statusCode, retryCount) == RetryAfter(5000)
    ensures statusCode == Some(440) ==> ClassifyClose(statusCode, retryCount) == RetryAfter(10000)
    ensures statusCode.Some? && statusCode.value !in {0, 401, 440, 515} ==>
      ClassifyClose(statusCode, retryCount) == RetryAfter(Backoff(retryCount))
  {
  }

  /** The setup-failure branch: the delay of the retry, or None when the attempts are exhausted. */
  function SetupRetry(retryCount: nat): (d: Option<nat>)
    ensures d.Some? <==> retryCount < MaxSetupRetries
    ensures d.Some? ==> d.value == SetupDelayStep * (retryCount + 1) && d.value <= 15000
  {
    if retryCount < MaxSetupRetries then Some(SetupDelayStep * (retryCount + 1)) else None
  }

  /** The retry counts of a run of setup failures starting at `retryCount`, up to the one that rejects. */
  function SetupFailureRun(retryCount: nat): (r: seq<nat>)
    ensures |r| == (if retryCount < MaxSetupRetries then MaxSetupRetries - retryCount else 0) + 1
    ensures forall i :: 0 <= i < |r| ==> r[i] == retryCount + i
    decreases MaxSetupRetries - retryCount
  {
    if retryCount < MaxSetupRetries then [retryCount] + SetupFailureRun(retryCount + 1) else [retryCount]
  }

  /** The total time a run of setup failures waits before it rejects. */
  function SetupWait(retryCount: nat): nat
    decreases MaxSetupRetries - retryCount
  {
    match SetupRetry(retryCount)
    case None => 0
    case Some(d) => d + SetupWait(retryCount + 1)
  }

  /**
   * From the first call, a setup that keeps failing is retried five times, with
   * retry counts 0 to 5, and rejects after waiting 3+6+9+12+15 = 45 seconds.
   */
  lemma SetupGivesUp()
    ensures SetupFailureRun(0) == [0, 1, 2, 3, 4, 5]
    ensures SetupWait(0) == 45000
  {
  }

  /** An `error` event retries when its message mentions Unauthorized or 401. */
  predicate RetriesOnError(message: string) {
    Contains(message, "Unauthorized") || Contains(message, "401")
  }

  /** The outer `catch` on the connection promise removes the credentials for these messages. */
  predicate ClearsOnRejection(message: string) {
    Contains(message, "auth") || Contains(message, "401")
  }

  /** The connection promise: pending, resolved with the socket of an attempt, or rejected. */
  datatype Settlement =
    | Pending
    | Resolved(attempt: nat)
    | Rejected(error: string)

  /** resolve and reject: only the first settlement of a promise takes effect. */
  function Settle(current: Settlement, next: Settlement): Settlement {
    if current.Pending? then next else current
  }

  /**
   * The first settlement wins: once the promise is settled, later resolves and
   * rejects change nothing, and it stays pending only while nothing settled it.
   */
  lemma SettleFirstWins(c: Settlement, a: Settlement, b: Settlement)
    ensures !c.Pending? ==> Settle(c, a) == c
    ensures !a.Pending? ==> Settle(Settle(c, a), b) == Settle(c, a)
    ensures Settle(c, a).Pending? <==> c.Pending? && a.Pending?
    ensures c.Pending? ==> Settle(c, a) == a
  {
  }

  /** A reconnection the policy scheduled: connectToWhatsApp(retryCount) after `delay` ms. */
  datatype Reconnect = Reconnect(delay: nat, retryCount: nat)

  /**
   * The connection state: the retry counts of every connectToWhatsApp call so
   * far, those whose setup produced a socket, the reconnections scheduled,
   * whether the auth_info credentials exist, and the promise.
   */
  class ConnectionManager {
    var calls: seq<nat>
    var sockets: seq<nat>
    var scheduled: seq<Reconnect>
    var credentials: bool
    var settlement: Settlement

    /**
     * Every socket came from a call, and every scheduled reconnection carries
     * the retry count of a call plus one: no path ever schedules retry count 0.
     */
    ghost predicate Valid()
      reads this
    {
      && (forall i :: 0 <= i < |sockets| ==> sockets[i] in calls)
      && (forall i :: 0 <= i < |scheduled| ==> scheduled[i].retryCount >= 1 && scheduled[i].retryCount - 1 in calls)
    }

    constructor(credentialsPresent: bool)
      ensures calls == [] && sockets == [] && scheduled == []
      ensures credentials == credentialsPresent && settlement == Pending
      ensures Valid()
    {
      calls := [];
      sockets := [];
      scheduled := [];
      credentials := credentialsPresent;
      settlement := Pending;
    }

    /** Settle the promise; a rejection that takes effect runs the outer catch. */
    method Finish(next: Settlement)
      modifies this
      requires Valid()
      ensures Valid()
      ensures settlement == Settle(old(settlement), next)
      ensures credentials == if old(settlement).Pending? && next.Rejected? && ClearsOnRejection(next.error) then false else old(credentials)
      ensures calls == old(calls) && sockets == old(sockets) && scheduled == old(scheduled)
    {
      if settlement.Pending? {
        settlement := next;
        if next.Rejected? && ClearsOnRejection(next.error) {
          credentials := false;
        }
      }
    }

    /**
     * connectToWhatsApp(retryCount): the auth state is loaded and a socket
     * created, or the setup throws and is retried with a linear delay while
     * fewer than five retries were made, and rejects otherwise.
     */
    method Connect(retryCount: nat, setup: Result<()>)
      modifies this
      requires Valid()
      requires retryCount == 0 || exists i :: 0 <= i < |scheduled| && scheduled[i].retryCount == retryCount
      ensures Valid()
      ensures calls == old(calls) + [retryCount]
      ensures setup.Success? ==>
        sockets == old(sockets) + [retryCount] && scheduled == old(scheduled)
        && settlement == old(settlement) && credentials == old(credentials)
      ensures setup.Failure? && retryCount < MaxSetupRetries ==>
        sockets == old(sockets) && scheduled == old(scheduled) + [Reconnect(SetupDelayStep * (retryCount + 1), retryCount + 1)]
        && settlement == old(settlement) && credentials == old(credentials)
      ensures setup.Failure? && retryCount >= MaxSetupRetries ==>
        sockets == old(sockets) && scheduled == old(scheduled)
        && settlement == Settle(old(settlement), Rejected(setup.error))
        && credentials == if old(settlement).Pending? && ClearsOnRejection(setup.error) then false else old(credentials)
    {
      calls := calls + [retryCount];
      if setup.Success? {
        sockets := sockets + [retryCount];
        return;
      }
      match SetupRetry(retryCount)
      case Some(d) =>
        scheduled := scheduled + [Reconnect(d, retryCount + 1)];
      case None =>
        Finish(Rejected(setup.error));
    }

    /**
     * A `connection.update` with `connection === 'close'` on the socket of the
     * given attempt. For a logged-out close the credentials are removed and the
     * next attempt is started at once; a removal that throws rejects instead.
     */
    method OnClose(attempt: nat, statusCode: Option<int>, removal: Result<()>)
      modifies this
      requires Valid() && attempt in sockets
      ensures Valid()
      ensures calls == old(calls) && sockets == old(sockets)
      ensures ClassifyClose(statusCode, attempt) == ClearAndRetryNow && removal.Success? ==>
        !credentials && scheduled == old(scheduled) + [Reconnect(0, attempt + 1)] && settlement == old(settlement)
      ensures ClassifyClose(statusCode, attempt) == ClearAndRetryNow && removal.Failure? ==>
        scheduled == old(scheduled) && settlement == Settle(old(settlement), Rejected(removal.error))
        && credentials == if old(settlement).Pending? && ClearsOnRejection(removal.error) then false else old(credentials)
      ensures ClassifyClose(statusCode, attempt).RetryAfter? ==>
        scheduled == old(scheduled) + [Reconnect(ClassifyClose(statusCode, attempt).delay, attempt + 1)]
        && credentials == old(credentials) && settlement == old(settlement)
      ensures ClassifyClose(statusCode, attempt) == NoRetry ==>
        scheduled == old(scheduled) && credentials == old(credentials) && settlement == old(settlement)
    {
      match ClassifyClose(statusCode, attempt)
      case ClearAndRetryNow =>
        if removal.Success? {
          credentials := false;
          scheduled := scheduled + [Reconnect(0, attempt + 1)];
        } else {
          Finish(Rejected(removal.error));
        }
      case RetryAfter(d) =>
        scheduled := scheduled + [Reconnect(d, attempt + 1)];
      case NoRetry =>
    }

    /** `connection === 'open'`: resolve with this attempt's socket; later opens change nothing. */
    method OnOpen(attempt: nat)
      modifies this
      requires Valid() && attempt in sockets
      ensures Valid()
      ensures settlement == Settle(old(settlement), Resolved(attempt))
      ensures calls == old(calls) && sockets == old(sockets) && scheduled == old(scheduled) && credentials == old(credentials)
    {
      settlement := Settle(settlement, Resolved(attempt));
    }

    /**
     * An `error` event on the socket of the given attempt: on Unauthorized or
     * 401 the credentials are removed (a failed removal is only logged) and the
     * next attempt is scheduled after five seconds.
     */
    method OnError(attempt: nat, message: string, removal: Result<()>)
      modifies this
      requires Valid() && attempt in sockets
      ensures Valid()
      ensures calls == old(calls) && sockets == old(sockets) && settlement == old(settlement)
      ensures RetriesOnError(message) ==>
        scheduled == old(scheduled) + [Reconnect(UnauthorizedDelay, attempt + 1)]
        && credentials == (old(credentials) && removal.Failure?)
      ensures !RetriesOnError(message) ==> scheduled == old(scheduled) && credentials == old(credentials)
    {
      if RetriesOnError(message) {
        if removal.Success? {
          credentials := false;
        }
        scheduled := scheduled + [Reconnect(UnauthorizedDelay, attempt + 1)];
      }
    }

    /** `creds.update`: saveCreds writes the credentials. */
    method OnCredsUpdate()
      modifies this
      requires Valid()
      ensures Valid()
      ensures credentials
      ensures calls == old(calls) && sockets == old(sockets) && scheduled == old(scheduled) && settlement == old(settlement)
    {
      credentials := true;
    }
  }

  /**
   * The first call fails its setup; the retry it schedules succeeds and opens;
   * a later close with an unknown code schedules a backoff at retry count 2,
   * and its open does not replace the socket the promise resolved with.
   */
  method ReconnectAfterResolve() returns (settlement: Settlement, scheduled: seq<Reconnect>)
    ensures settlement == Resolved(1)
    ensures scheduled == [Reconnect(3000, 1), Reconnect(2000, 2)]
  {
    var manager := new ConnectionManager(true);
    manager.Connect(0, Failure("ENOENT"));
    assert manager.scheduled == [Reconnect(3000, 1)] && manager.settlement == Pending;
    assert manager.scheduled[0].retryCount == 1;
    manager.Connect(1, Success(()));
    assert manager.sockets == [1];
    manager.OnOpen(1);
    assert manager.settlement == Resolved(1);
    assert Pow2(1) == 2;
    assert ClassifyClose(Some(428), 1) == RetryAfter(2000);
    manager.OnClose(1, Some(428), Success(()));
    assert manager.scheduled == [Reconnect(3000, 1), Reconnect(2000, 2)];
    assert manager.scheduled[1].retryCount == 2;
    manager.Connect(2, Success(()));
    assert 2 in manager.sockets;
    manager.OnOpen(2);
    settlement, scheduled := manager.settlement, manager.scheduled;
  }
}
