/**
 * The pending-registration set (uninitializedAccounts): the keys asked for
 * by addAccount that the remote ledger has not yet acknowledged. These are
 * the state transitions the banker applies to it; `storeKeys` is the set of
 * keys the account store holds at that moment (accounts.exists).
 */
module Registration {
  import opened Ledger
  import opened Keys

  /** The registration POST for `key`, carrying the role's account type. */
  function RegisterRequest(key: AccountKey, role: Role): (e: Effect)
    ensures e.Send? && e.request.PostAccount?
    ensures e.request.accountName == key
    ensures e.request.accountType == "Router" <==> role == Router
    ensures e.request.accountType == "PostAuction" <==> role == PostAuction
  {
    Send(PostAccount(key, AccountType(role)))
  }

  /** addAccountImpl on the pending set: a stored key is dropped, any other key is added. */
  function AfterAdd(pending: set<AccountKey>, key: AccountKey, storeKeys: set<AccountKey>): (p: set<AccountKey>)
    ensures key in p <==> key !in storeKeys
    ensures p - {key} == pending - {key}
  {
    if key in storeKeys then pending - {key} else pending + {key}
  }

  /** addAccountImpl's requests: one registration POST exactly when the store lacks the key. */
  function AddRequests(key: AccountKey, storeKeys: set<AccountKey>, role: Role): (effs: seq<Effect>)
    ensures effs == [] <==> key in storeKeys
    ensures forall e :: e in effs ==> e == RegisterRequest(key, role)
    ensures |effs| <= 1
  {
    if key in storeKeys then [] else [RegisterRequest(key, role)]
  }

  /**
   * The registration callback on the pending set: a 200 acknowledges the
   * key whether or not the store accepted the body; any other status
   * leaves it pending for the next sweep.
   */
  function AfterResponse(pending: set<AccountKey>, key: AccountKey, status: int): (p: set<AccountKey>)
    ensures status == HttpOk ==> key !in p && p + {key} >= pending
    ensures status != HttpOk ==> p == pending
    ensures p <= pending
  {
    if status == HttpOk then pending - {key} else pending
  }

  /** The pending set a sweep leaves: the swapped keys the store still lacks. */
  function AfterSweep(pending: set<AccountKey>, storeKeys: set<AccountKey>): (p: set<AccountKey>)
    ensures forall k :: k in p <==> k in pending && k !in storeKeys
  {
    pending - storeKeys
  }

  /** The registration POSTs a sweep issues, one per key it leaves pending. */
  function Registrations(keys: set<AccountKey>, role: Role): (effs: set<Effect>)
    ensures forall k :: RegisterRequest(k, role) in effs <==> k in keys
    ensures forall e :: e in effs ==> exists k :: k in keys && e == RegisterRequest(k, role)
  {
    set k | k in keys :: RegisterRequest(k, role)
  }

  /** Adding one more key adds exactly one registration that was not there before. */
  lemma RegistrationsAdd(keys: set<AccountKey>, k: AccountKey, role: Role)
    requires k !in keys
    ensures Registrations(keys + {k}, role) == Registrations(keys, role) + {RegisterRequest(k, role)}
    ensures RegisterRequest(k, role) !in Registrations(keys, role)
  {
  }

  /** Re-running addAccountImpl on a key not yet pending adds its requests to the sweep's. */
  lemma RegistrationsAfterAdd(done: set<AccountKey>, key: AccountKey, storeKeys: set<AccountKey>, role: Role)
    requires key !in done
    ensures multiset(Registrations(AfterAdd(done, key, storeKeys), role))
         == multiset(Registrations(done, role)) + multiset(AddRequests(key, storeKeys, role))
  {
  }

  /** One more key taken by the sweep: its pending set grows as addAccountImpl says. */
  lemma SweepStep(swapped: set<AccountKey>, remaining: set<AccountKey>, key: AccountKey, storeKeys: set<AccountKey>)
    requires key in remaining && remaining <= swapped
    ensures key !in AfterSweep(swapped - remaining, storeKeys)
    ensures AfterSweep(swapped - (remaining - {key}), storeKeys)
         == AfterAdd(AfterSweep(swapped - remaining, storeKeys), key, storeKeys)
  {
  }

  /** Registering a key twice with no response in between leaves one pending entry. */
  lemma AddIdempotent(pending: set<AccountKey>, key: AccountKey, storeKeys: set<AccountKey>)
    ensures AfterAdd(AfterAdd(pending, key, storeKeys), key, storeKeys) == AfterAdd(pending, key, storeKeys)
  {
  }

  /** A key acknowledged by a 200 is neither kept pending nor re-posted by the next sweep. */
  lemma AcknowledgedNotRetried(pending: set<AccountKey>, key: AccountKey, storeKeys: set<AccountKey>, role: Role)
    ensures key !in AfterSweep(AfterResponse(pending, key, HttpOk), storeKeys)
    ensures RegisterRequest(key, role) !in Registrations(AfterSweep(AfterResponse(pending, key, HttpOk), storeKeys), role)
  {
  }

  /**
   * A failed registration is retried by the next sweep while the store
   * lacks the key: the key stays pending and the sweep posts it again.
   */
  lemma FailedIsRetried(pending: set<AccountKey>, key: AccountKey, status: int, storeKeys: set<AccountKey>, role: Role)
    requires key in pending && status != HttpOk && key !in storeKeys
    ensures key in AfterSweep(AfterResponse(pending, key, status), storeKeys)
    ensures RegisterRequest(key, role) in Registrations(AfterSweep(AfterResponse(pending, key, status), storeKeys), role)
  {
  }

  /**
   * What happens to the pending set between two addAccount calls: periodic
   * sweeps, each against the store's key set at that moment, and
   * registration responses.
   */
  datatype PendingEvent = Sweep(storeKeys: set<AccountKey>) | Response(key: AccountKey, status: int)

  /** The pending set after a run of sweeps and responses. */
  function Replay(pending: set<AccountKey>, evs: seq<PendingEvent>): (p: set<AccountKey>)
    ensures p <= pending
    decreases |evs|
  {
    if evs == [] then pending
    else
      match evs[0]
      case Sweep(storeKeys) => Replay(AfterSweep(pending, storeKeys), evs[1..])
      case Response(key, status) => Replay(AfterResponse(pending, key, status), evs[1..])
  }

  /** Every registration POST the sweeps of a run issue. */
  function Reposted(pending: set<AccountKey>, evs: seq<PendingEvent>, role: Role): (effs: set<Effect>)
    ensures forall e :: e in effs ==> exists k :: k in pending && e == RegisterRequest(k, role)
    decreases |evs|
  {
    if evs == [] then {}
    else
      match evs[0]
      case Sweep(storeKeys) =>
        Registrations(AfterSweep(pending, storeKeys), role)
          + Reposted(AfterSweep(pending, storeKeys), evs[1..], role)
      case Response(key, status) => Reposted(AfterResponse(pending, key, status), evs[1..], role)
  }

  /** A key that is not pending stays so, and is never posted, until addAccount asks for it again. */
  lemma {:induction false} NotPendingNeverReposted(pending: set<AccountKey>, key: AccountKey, evs: seq<PendingEvent>, role: Role)
    requires key !in pending
    ensures key !in Replay(pending, evs)
    ensures RegisterRequest(key, role) !in Reposted(pending, evs, role)
    decreases |evs|
  {
    if evs != [] {
      match evs[0]
      case Sweep(storeKeys) =>
        NotPendingNeverReposted(AfterSweep(pending, storeKeys), key, evs[1..], role);
      case Response(k, status) =>
        NotPendingNeverReposted(AfterResponse(pending, k, status), key, evs[1..], role);
    }
  }

  /** After a 200 for a key, no sweep re-posts it until addAccount is called for it again. */
  lemma AcknowledgedNeverReposted(pending: set<AccountKey>, key: AccountKey, evs: seq<PendingEvent>, role: Role)
    ensures key !in Replay(AfterResponse(pending, key, HttpOk), evs)
    ensures RegisterRequest(key, role) !in Reposted(AfterResponse(pending, key, HttpOk), evs, role)
  {
    NotPendingNeverReposted(AfterResponse(pending, key, HttpOk), key, evs, role);
  }

  /** The run has no 200 for `key`, and no sweep in it finds `key` in the store. */
  predicate Unacknowledged(evs: seq<PendingEvent>, key: AccountKey) {
    forall i :: 0 <= i < |evs| ==>
      match evs[i]
      case Sweep(storeKeys) => key !in storeKeys
      case Response(k, status) => k != key || status != HttpOk
  }

  /**
   * A pending key stays pending, and every sweep of the run posts it again,
   * until a 200 arrives for it or the store holds it.
   */
  lemma {:induction false} RetriedUntilAcknowledged(pending: set<AccountKey>, key: AccountKey, evs: seq<PendingEvent>, role: Role)
    requires key in pending && Unacknowledged(evs, key)
    ensures key in Replay(pending, evs)
    ensures (exists i :: 0 <= i < |evs| && evs[i].Sweep?) ==> RegisterRequest(key, role) in Reposted(pending, evs, role)
    decreases |evs|
  {
    if evs != [] {
      assert Unacknowledged(evs[1..], key) by {
        forall i | 0 <= i < |evs[1..]| ensures evs[1..][i] == evs[i + 1] {}
      }
      match evs[0]
      case Sweep(storeKeys) =>
        RetriedUntilAcknowledged(AfterSweep(pending, storeKeys), key, evs[1..], role);
      case Response(k, status) =>
        RetriedUntilAcknowledged(AfterResponse(pending, k, status), key, evs[1..], role);
        if exists i :: 0 <= i < |evs| && evs[i].Sweep? {
          var i :| 0 <= i < |evs| && evs[i].Sweep?;
          assert evs[1..][i - 1].Sweep?;
        }
    }
  }

  /** Once the store holds every pending key, a sweep empties the set and posts nothing. */
  lemma SweepConverges(pending: set<AccountKey>, storeKeys: set<AccountKey>, role: Role)
    requires pending <= storeKeys
    ensures AfterSweep(pending, storeKeys) == {}
    ensures Registrations(AfterSweep(pending, storeKeys), role) == {}
  {
  }
}
