/**
 * The LocalBanker's bookkeeping as a sequential state machine. Each method
 * is one atomic step: a timer tick, a response handler, or a call from the
 * bidding hot path. Requests to the remote ledger and mutating calls into
 * the account store are appended to `effects` in the order they are made;
 * what the store currently holds (accounts.exists) or decides (bid, win) is
 * passed in by the caller of each step.
 */
module Banker {
  import opened Ledger
  import opened Keys
  import opened OverlapGuard
  import opened Dispatch
  import opened Registration

  /** The spend rate a banker starts with: 100000 micro-USD. */
  const DefaultSpendRate: Amount := 100000

  class LocalBanker {
    const role: Role
    const accountSuffix: string
    const accountSuffixNoDot: string
    var spendRate: Amount
    var reauthorizeInProgress: bool
    var reauthorizeSkipped: int
    var spendUpdateInProgress: bool
    var spendUpdateSkipped: int
    /** The pending-registration set. */
    var uninitializedAccounts: set<AccountKey>
    /** Everything sent to the ledger or the store so far, in order. */
    var effects: seq<Effect>

    /** The reauthorize protocol's flag and skip counter. */
    function ReauthorizeGuard(): (g: Guard)
      reads this
      ensures g.inProgress == reauthorizeInProgress && g.skipped == reauthorizeSkipped
    {
      Guard(reauthorizeInProgress, reauthorizeSkipped)
    }

    /** The spend-update protocol's flag and skip counter. */
    function SpendUpdateGuard(): (g: Guard)
      reads this
      ensures g.inProgress == spendUpdateInProgress && g.skipped == spendUpdateSkipped
    {
      Guard(spendUpdateInProgress, spendUpdateSkipped)
    }

    ghost predicate Valid()
      reads this
    {
      && Bounded(ReauthorizeGuard())
      && Bounded(SpendUpdateGuard())
      && accountSuffixNoDot == NoDot(accountSuffix)
    }

    constructor (role: Role, accountSuffix: string)
      ensures Valid()
      ensures this.role == role && this.accountSuffix == accountSuffix
      ensures accountSuffixNoDot == NoDot(accountSuffix)
      ensures spendRate == DefaultSpendRate
      ensures ReauthorizeGuard() == Initial && SpendUpdateGuard() == Initial
      ensures uninitializedAccounts == {} && effects == []
    {
      this.role := role;
      this.accountSuffix := accountSuffix;
      accountSuffixNoDot := NoDot(accountSuffix);
      spendRate := DefaultSpendRate;
      reauthorizeInProgress, reauthorizeSkipped := false, 0;
      spendUpdateInProgress, spendUpdateSkipped := false, 0;
      uninitializedAccounts := {};
      effects := [];
    }

    /** Changes the banker's spend rate and passes it on to the store. */
    method SetSpendRate(newSpendRate: Amount)
      requires Valid()
      modifies this
      ensures Valid()
      ensures spendRate == newSpendRate
      ensures effects == old(effects) + [Call(SetStoreSpendRate(newSpendRate))]
      ensures ReauthorizeGuard() == old(ReauthorizeGuard()) && SpendUpdateGuard() == old(SpendUpdateGuard())
      ensures uninitializedAccounts == old(uninitializedAccounts)
    {
      spendRate := newSpendRate;
      effects := effects + [Call(SetStoreSpendRate(spendRate))];
    }

    /** Registers the caller's key under this replica's suffix. */
    method AddAccount(key: AccountKey, storeKeys: set<AccountKey>)
      requires Valid()
      modifies this
      ensures Valid()
      ensures uninitializedAccounts == AfterAdd(old(uninitializedAccounts), FullKey(key, accountSuffix), storeKeys)
      ensures effects == old(effects) + AddRequests(FullKey(key, accountSuffix), storeKeys, role)
      ensures spendRate == old(spendRate)
      ensures ReauthorizeGuard() == old(ReauthorizeGuard()) && SpendUpdateGuard() == old(SpendUpdateGuard())
    {
      AddAccountImpl(FullKey(key, accountSuffix), storeKeys);
    }

    /**
     * A key the store already holds is dropped from the pending set;
     * any other key is marked pending and a registration is posted.
     */
    method AddAccountImpl(key: AccountKey, storeKeys: set<AccountKey>)
      requires Valid()
      modifies this
      ensures Valid()
      ensures uninitializedAccounts == AfterAdd(old(uninitializedAccounts), key, storeKeys)
      ensures effects == old(effects) + AddRequests(key, storeKeys, role)
      ensures spendRate == old(spendRate)
      ensures ReauthorizeGuard() == old(ReauthorizeGuard()) && SpendUpdateGuard() == old(SpendUpdateGuard())
    {
      if key in storeKeys {
        if key in uninitializedAccounts {
          uninitializedAccounts := uninitializedAccounts - {key};
        }
        return;
      } else {
        uninitializedAccounts := uninitializedAccounts + {key};
      }
      effects := effects + [Send(PostAccount(key, AccountType(role)))];
    }

    /** The callback of the registration POST for `key`. */
    method OnRegistrationResponse(key: AccountKey, status: int, body: string)
      requires Valid()
      modifies this
      ensures Valid()
      ensures uninitializedAccounts == AfterResponse(old(uninitializedAccounts), key, status)
      ensures effects == old(effects) + (if status == HttpOk then [Call(AddFromJson(body))] else [])
      ensures spendRate == old(spendRate)
      ensures ReauthorizeGuard() == old(ReauthorizeGuard()) && SpendUpdateGuard() == old(SpendUpdateGuard())
    {
      if status != HttpOk {
        return;
      }
      effects := effects + [Call(AddFromJson(body))];
      if key in uninitializedAccounts {
        uninitializedAccounts := uninitializedAccounts - {key};
      }
    }

    /**
     * The periodic sweep: take the whole pending set, leave an empty one in
     * its place, and run addAccountImpl again on every key taken.
     */
    method SweepPending(storeKeys: set<AccountKey>)
      requires Valid()
      modifies this
      ensures Valid()
      ensures uninitializedAccounts == AfterSweep(old(uninitializedAccounts), storeKeys)
      ensures |effects| >= |old(effects)| && effects[..|old(effects)|] == old(effects)
      ensures multiset(effects[|old(effects)|..])
           == multiset(Registrations(AfterSweep(old(uninitializedAccounts), storeKeys), role))
      ensures spendRate == old(spendRate)
      ensures ReauthorizeGuard() == old(ReauthorizeGuard()) && SpendUpdateGuard() == old(SpendUpdateGuard())
    {
      var swapped := uninitializedAccounts;
      uninitializedAccounts := {};
      ghost var before := effects;
      var remaining := swapped;
      while remaining != {}
        invariant Valid()
        invariant remaining <= swapped
        invariant uninitializedAccounts == AfterSweep(swapped - remaining, storeKeys)
        invariant |effects| >= |before| && effects[..|before|] == before
        invariant multiset(effects[|before|..]) == multiset(Registrations(uninitializedAccounts, role))
        invariant spendRate == old(spendRate)
        invariant ReauthorizeGuard() == old(ReauthorizeGuard()) && SpendUpdateGuard() == old(SpendUpdateGuard())
        decreases remaining
      {
        var key :| key in remaining;
        ghost var done := uninitializedAccounts;
        ghost var prev := effects;
        AddAccountImpl(key, storeKeys);
        SweepStep(swapped, remaining, key, storeKeys);
        RegistrationsAfterAdd(done, key, storeKeys, role);
        AppendSlices(prev, AddRequests(key, storeKeys, role), |before|);
        remaining := remaining - {key};
      }
      assert swapped - remaining == swapped;
    }

    /** Asks the ledger for `key`'s canonical record, to replace the local one. */
    method ReplaceAccount(key: AccountKey)
      requires Valid()
      modifies this
      ensures Valid()
      ensures effects == old(effects) + [Send(GetAccount(key))]
      ensures uninitializedAccounts == old(uninitializedAccounts) && spendRate == old(spendRate)
      ensures ReauthorizeGuard() == old(ReauthorizeGuard()) && SpendUpdateGuard() == old(SpendUpdateGuard())
    {
      effects := effects + [Send(GetAccount(key))];
    }

    /** The callback of replaceAccount's fetch: a 200 body overwrites the stored record. */
    method OnReplaceResponse(status: int, body: string)
      requires Valid()
      modifies this
      ensures Valid()
      ensures effects == old(effects) + (if status == HttpOk then [Call(ReplaceFromJson(body))] else [])
      ensures uninitializedAccounts == old(uninitializedAccounts) && spendRate == old(spendRate)
      ensures ReauthorizeGuard() == old(ReauthorizeGuard()) && SpendUpdateGuard() == old(SpendUpdateGuard())
    {
      if status == HttpOk {
        effects := effects + [Call(ReplaceFromJson(body))];
      }
    }

    /** Sends the banker's spend rate as `key`'s rate. */
    method SetRate(key: AccountKey)
      requires Valid()
      modifies this
      ensures Valid()
      ensures effects == old(effects) + [Send(PostRate(key, spendRate))]
      ensures uninitializedAccounts == old(uninitializedAccounts) && spendRate == old(spendRate)
      ensures ReauthorizeGuard() == old(ReauthorizeGuard()) && SpendUpdateGuard() == old(SpendUpdateGuard())
    {
      effects := effects + [Send(PostRate(key, spendRate))];
    }

    /** A spend-update timer tick: report every stored account unless the guard skips. */
    method SpendUpdate(storeKeys: set<AccountKey>) returns (issued: bool)
      requires Valid()
      modifies this
      ensures Valid()
      ensures Step(SpendUpdateGuard(), issued) == Tick(old(SpendUpdateGuard()))
      ensures effects == old(effects) + (if issued then [Send(PostSpendUpdate(storeKeys))] else [])
      ensures ReauthorizeGuard() == old(ReauthorizeGuard())
      ensures uninitializedAccounts == old(uninitializedAccounts) && spendRate == old(spendRate)
    {
      if spendUpdateInProgress {
        spendUpdateSkipped := spendUpdateSkipped + 1;
        if spendUpdateSkipped > MaxSkips {
          // forced retry: issue a request although one is outstanding
        } else {
          return false;
        }
      }
      spendUpdateInProgress := true;
      spendUpdateSkipped := 0;
      effects := effects + [Send(PostSpendUpdate(storeKeys))];
      issued := true;
    }

    /**
     * The spend-update callback: clear the flag, then fetch every account
     * whose status is neither "no need" nor "success".
     */
    method OnSpendUpdateResponse(status: int, body: Decoded<seq<StatusEntry>>)
      requires Valid()
      modifies this
      ensures Valid()
      ensures SpendUpdateGuard() == Respond(old(SpendUpdateGuard()))
      ensures effects == old(effects) + SpendUpdateEffects(status, body)
      ensures ReauthorizeGuard() == old(ReauthorizeGuard())
      ensures uninitializedAccounts == old(uninitializedAccounts) && spendRate == old(spendRate)
    {
      spendUpdateInProgress := false;
      if status == HttpOk && body.Parsed? {
        DispatchStatuses(body.value);
      }
    }

    /** The spend-update loop: replaceAccount for each out-of-sync entry. */
    method DispatchStatuses(entries: seq<StatusEntry>)
      requires Valid()
      modifies this
      ensures Valid()
      ensures effects == old(effects) + Fetches(entries)
      ensures ReauthorizeGuard() == old(ReauthorizeGuard()) && SpendUpdateGuard() == old(SpendUpdateGuard())
      ensures uninitializedAccounts == old(uninitializedAccounts) && spendRate == old(spendRate)
    {
      var i := 0;
      while i < |entries|
        invariant 0 <= i <= |entries|
        invariant Valid()
        invariant effects == old(effects) + Fetches(entries[..i])
        invariant ReauthorizeGuard() == old(ReauthorizeGuard()) && SpendUpdateGuard() == old(SpendUpdateGuard())
        invariant uninitializedAccounts == old(uninitializedAccounts) && spendRate == old(spendRate)
      {
        assert entries[..i + 1][..i] == entries[..i];
        FetchesSnoc(entries[..i + 1]);
        if OutOfSync(entries[i].status) {
          ReplaceAccount(entries[i].account);
        }
        i := i + 1;
      }
      assert entries[..i] == entries;
    }

    /** A reauthorize timer tick: send every stored key unless the guard skips. */
    method Reauthorize(storeKeys: set<AccountKey>) returns (issued: bool)
      requires Valid()
      modifies this
      ensures Valid()
      ensures Step(ReauthorizeGuard(), issued) == Tick(old(ReauthorizeGuard()))
      ensures effects == old(effects) + (if issued then [Send(PostReauthorize(storeKeys))] else [])
      ensures SpendUpdateGuard() == old(SpendUpdateGuard())
      ensures uninitializedAccounts == old(uninitializedAccounts) && spendRate == old(spendRate)
    {
      if reauthorizeInProgress {
        reauthorizeSkipped := reauthorizeSkipped + 1;
        if reauthorizeSkipped > MaxSkips {
          // forced retry: issue a request although one is outstanding
        } else {
          return false;
        }
      }
      reauthorizeInProgress := true;
      reauthorizeSkipped := 0;
      effects := effects + [Send(PostReauthorize(storeKeys))];
      issued := true;
    }

    /**
     * The reauthorize callback: clear the flag, then for every record
     * accumulate its balance and request a rate change when its rate is
     * above the banker's spend rate.
     */
    method OnReauthorizeResponse(status: int, body: Decoded<seq<AccountRecord>>)
      requires Valid()
      modifies this
      ensures Valid()
      ensures ReauthorizeGuard() == Respond(old(ReauthorizeGuard()))
      ensures effects == old(effects) + ReauthorizeEffects(status, body, spendRate)
      ensures SpendUpdateGuard() == old(SpendUpdateGuard())
      ensures uninitializedAccounts == old(uninitializedAccounts) && spendRate == old(spendRate)
    {
      reauthorizeInProgress := false;
      if status == HttpOk && body.Parsed? {
        DispatchRecords(body.value);
      }
    }

    /** The reauthorize loop over the decoded records. */
    method DispatchRecords(records: seq<AccountRecord>)
      requires Valid()
      modifies this
      ensures Valid()
      ensures effects == old(effects) + RecordsEffects(records, spendRate)
      ensures ReauthorizeGuard() == old(ReauthorizeGuard()) && SpendUpdateGuard() == old(SpendUpdateGuard())
      ensures uninitializedAccounts == old(uninitializedAccounts) && spendRate == old(spendRate)
    {
      var i := 0;
      while i < |records|
        invariant 0 <= i <= |records|
        invariant Valid()
        invariant effects == old(effects) + RecordsEffects(records[..i], spendRate)
        invariant ReauthorizeGuard() == old(ReauthorizeGuard()) && SpendUpdateGuard() == old(SpendUpdateGuard())
        invariant uninitializedAccounts == old(uninitializedAccounts) && spendRate == old(spendRate)
      {
        assert records[..i + 1] == records[..i] + [records[i]];
        RecordsEffectsSnoc(records[..i], records[i], spendRate);
        DispatchRecord(records[i]);
        i := i + 1;
      }
      assert records[..i] == records;
    }

    /** The body of the reauthorize loop for one record. */
    method DispatchRecord(record: AccountRecord)
      requires Valid()
      modifies this
      ensures Valid()
      ensures effects == old(effects) + RecordEffects(record, spendRate)
      ensures ReauthorizeGuard() == old(ReauthorizeGuard()) && SpendUpdateGuard() == old(SpendUpdateGuard())
      ensures uninitializedAccounts == old(uninitializedAccounts) && spendRate == old(spendRate)
    {
      effects := effects + [Call(AccumulateBalance(record.name, record.balance))];
      if record.rate > spendRate {
        SetRate(record.name);
      }
    }

    /** The hot-path bid: one store call under the suffixed key, no request to the ledger. */
    method Bid(key: AccountKey, bidPrice: Amount, storeBid: (AccountKey, Amount) -> bool) returns (canBid: bool)
      requires Valid()
      modifies this
      ensures Valid()
      ensures canBid == storeBid(FullKey(key, accountSuffix), bidPrice)
      ensures effects == old(effects) + [Call(StoreBid(FullKey(key, accountSuffix), bidPrice))]
      ensures ReauthorizeGuard() == old(ReauthorizeGuard()) && SpendUpdateGuard() == old(SpendUpdateGuard())
      ensures uninitializedAccounts == old(uninitializedAccounts) && spendRate == old(spendRate)
    {
      var fullKey := FullKey(key, accountSuffix);
      canBid := storeBid(fullKey, bidPrice);
      effects := effects + [Call(StoreBid(fullKey, bidPrice))];
    }

    /** The hot-path win: one store call under the suffixed key, no request to the ledger. */
    method Win(key: AccountKey, winPrice: Amount, storeWin: (AccountKey, Amount) -> bool) returns (winAccounted: bool)
      requires Valid()
      modifies this
      ensures Valid()
      ensures winAccounted == storeWin(FullKey(key, accountSuffix), winPrice)
      ensures effects == old(effects) + [Call(StoreWin(FullKey(key, accountSuffix), winPrice))]
      ensures ReauthorizeGuard() == old(ReauthorizeGuard()) && SpendUpdateGuard() == old(SpendUpdateGuard())
      ensures uninitializedAccounts == old(uninitializedAccounts) && spendRate == old(spendRate)
    {
      var fullKey := FullKey(key, accountSuffix);
      winAccounted := storeWin(fullKey, winPrice);
      effects := effects + [Call(StoreWin(fullKey, winPrice))];
    }
  }
}
