/**
 * What the spend-update and reauthorize response handlers do with an
 * already-decoded response body, as the list of effects they emit.
 */
module Dispatch {
  import opened Ledger

  /** One entry of a spend-update response: an account name and its status string. */
  datatype StatusEntry = StatusEntry(account: AccountKey, status: string)

  /** One record of a reauthorize response. */
  datatype AccountRecord = AccountRecord(name: AccountKey, balance: Amount, rate: int)

  /** A spend-update status that signals a desynchronised account. */
  predicate OutOfSync(status: string): (r: bool)
    ensures !r <==> status in {"no need", "success"}
  {
    status != "no need" && status != "success"
  }

  /** The account fetches (replaceAccount) triggered by the decoded entries, in order. */
  function Fetches(entries: seq<StatusEntry>): (effs: seq<Effect>)
    ensures |effs| <= |entries|
    ensures forall e :: e in effs ==> e.Send? && e.request.GetAccount?
  {
    if entries == [] then []
    else
      var last := entries[|entries| - 1];
      Fetches(entries[..|entries| - 1])
        + (if OutOfSync(last.status) then [Send(GetAccount(last.account))] else [])
  }

  /** The effects of a spend-update response: nothing unless it is a parsed 200. */
  function SpendUpdateEffects(status: int, body: Decoded<seq<StatusEntry>>): (effs: seq<Effect>)
    ensures status != HttpOk || body.ParseError? ==> effs == []
  {
    if status == HttpOk && body.Parsed? then Fetches(body.value) else []
  }

  /** Some entry reports `k` out of sync. */
  predicate ReportsOutOfSync(entries: seq<StatusEntry>, k: AccountKey) {
    exists i :: 0 <= i < |entries| && entries[i].account == k && OutOfSync(entries[i].status)
  }

  lemma ReportsOutOfSyncSnoc(entries: seq<StatusEntry>, k: AccountKey)
    requires entries != []
    ensures ReportsOutOfSync(entries, k)
        <==> ReportsOutOfSync(entries[..|entries| - 1], k)
             || (entries[|entries| - 1].account == k && OutOfSync(entries[|entries| - 1].status))
  {
  }

  lemma FetchesSnoc(entries: seq<StatusEntry>)
    requires entries != []
    ensures Fetches(entries) == Fetches(entries[..|entries| - 1])
      + (if OutOfSync(entries[|entries| - 1].status) then [Send(GetAccount(entries[|entries| - 1].account))] else [])
  {
  }

  /** An account is fetched iff some entry reports it out of sync. */
  lemma {:induction false} FetchedIff(entries: seq<StatusEntry>, k: AccountKey)
    ensures Send(GetAccount(k)) in Fetches(entries) <==> ReportsOutOfSync(entries, k)
    decreases |entries|
  {
    if entries != [] {
      FetchedIff(entries[..|entries| - 1], k);
      ReportsOutOfSyncSnoc(entries, k);
      FetchesSnoc(entries);
    }
  }

  /** The decoded body is a JSON object: no account name occurs twice. */
  predicate DistinctAccounts(entries: seq<StatusEntry>) {
    forall i, j :: 0 <= i < j < |entries| ==> entries[i].account != entries[j].account
  }

  /** Each out-of-sync account is fetched exactly once, every other account never. */
  lemma {:induction false} FetchedOnce(entries: seq<StatusEntry>, k: AccountKey)
    requires DistinctAccounts(entries)
    ensures multiset(Fetches(entries))[Send(GetAccount(k))]
         == if ReportsOutOfSync(entries, k) then 1 else 0
    decreases |entries|
  {
    if entries != [] {
      var init := entries[..|entries| - 1];
      var last := entries[|entries| - 1];
      assert DistinctAccounts(init) by {
        forall i, j | 0 <= i < j < |init| ensures init[i].account != init[j].account {
          assert init[i] == entries[i] && init[j] == entries[j];
        }
      }
      FetchedOnce(init, k);
      ReportsOutOfSyncSnoc(entries, k);
      FetchesSnoc(entries);
    }
  }

  /**
   * A single desync entry triggers exactly one fetch, of the name exactly
   * as the ledger reported it; "no need" and "success" entries trigger none.
   */
  lemma DesyncScenario()
    ensures SpendUpdateEffects(HttpOk, Parsed([StatusEntry("camp1:strategy1:router", "desync")]))
         == [Send(GetAccount("camp1:strategy1:router"))]
    ensures SpendUpdateEffects(HttpOk, Parsed([StatusEntry("a:r", "no need"), StatusEntry("b:r", "success")])) == []
  {
  }

  /**
   * The effects of one reauthorize record: accumulate the fresh balance,
   * then ask the ledger to lower the rate when the record's rate exceeds
   * the banker's spend rate.
   */
  function RecordEffects(r: AccountRecord, spendRate: Amount): (effs: seq<Effect>)
    ensures |effs| == (if r.rate > spendRate then 2 else 1)
    ensures effs[0] == Call(AccumulateBalance(r.name, r.balance))
  {
    [Call(AccumulateBalance(r.name, r.balance))]
      + (if r.rate > spendRate then [Send(PostRate(r.name, spendRate))] else [])
  }

  /** The effects of all reauthorize records, in order. */
  function RecordsEffects(records: seq<AccountRecord>, spendRate: Amount): (effs: seq<Effect>)
    ensures |records| <= |effs| <= 2 * |records|
  {
    if records == [] then []
    else
      RecordsEffects(records[..|records| - 1], spendRate)
        + RecordEffects(records[|records| - 1], spendRate)
  }

  lemma RecordsEffectsSnoc(records: seq<AccountRecord>, r: AccountRecord, spendRate: Amount)
    ensures RecordsEffects(records + [r], spendRate) == RecordsEffects(records, spendRate) + RecordEffects(r, spendRate)
  {
  }

  /** The effects of a reauthorize response: nothing unless it is a parsed 200. */
  function ReauthorizeEffects(status: int, body: Decoded<seq<AccountRecord>>, spendRate: Amount): (effs: seq<Effect>)
    ensures status != HttpOk || body.ParseError? ==> effs == []
  {
    if status == HttpOk && body.Parsed? then RecordsEffects(body.value, spendRate) else []
  }

  /** One accumulateBalance call per record, in record order, with that record's balance. */
  function Accumulations(records: seq<AccountRecord>): (cs: seq<StoreCall>)
    ensures |cs| == |records|
  {
    seq(|records|, i requires 0 <= i < |records| => AccumulateBalance(records[i].name, records[i].balance))
  }

  /** The records whose rate exceeds the spend rate, each as a setRate request. */
  function RateRequests(records: seq<AccountRecord>, spendRate: Amount): (rs: seq<Request>)
    ensures |rs| <= |records|
  {
    if records == [] then []
    else
      (if records[0].rate > spendRate then [PostRate(records[0].name, spendRate)] else [])
        + RateRequests(records[1..], spendRate)
  }

  lemma {:induction false} RateRequestsSnoc(records: seq<AccountRecord>, r: AccountRecord, spendRate: Amount)
    ensures RateRequests(records + [r], spendRate)
         == RateRequests(records, spendRate) + (if r.rate > spendRate then [PostRate(r.name, spendRate)] else [])
    decreases |records|
  {
    if records == [] {
      assert records + [r] == [r];
      assert [r][1..] == [];
    } else {
      assert (records + [r])[0] == records[0];
      assert (records + [r])[1..] == records[1..] + [r];
      RateRequestsSnoc(records[1..], r, spendRate);
    }
  }

  /** A single record: one accumulation, and a setRate only above the spend rate. */
  lemma RecordDispatch(r: AccountRecord, spendRate: Amount)
    ensures StoreCalls(RecordEffects(r, spendRate)) == [AccumulateBalance(r.name, r.balance)]
    ensures Requests(RecordEffects(r, spendRate))
         == if r.rate > spendRate then [PostRate(r.name, spendRate)] else []
  {
  }

  lemma AccumulationsSnoc(records: seq<AccountRecord>, r: AccountRecord)
    ensures Accumulations(records + [r]) == Accumulations(records) + [AccumulateBalance(r.name, r.balance)]
  {
  }

  /** The store sees exactly one accumulateBalance per record, in record order. */
  lemma {:induction false} ReauthorizeAccumulates(records: seq<AccountRecord>, spendRate: Amount)
    ensures StoreCalls(RecordsEffects(records, spendRate)) == Accumulations(records)
    decreases |records|
  {
    if records != [] {
      var init := records[..|records| - 1];
      var last := records[|records| - 1];
      calc {
        StoreCalls(RecordsEffects(records, spendRate));
        StoreCalls(RecordsEffects(init, spendRate) + RecordEffects(last, spendRate));
        { StoreCallsAppend(RecordsEffects(init, spendRate), RecordEffects(last, spendRate)); }
        StoreCalls(RecordsEffects(init, spendRate)) + StoreCalls(RecordEffects(last, spendRate));
        { ReauthorizeAccumulates(init, spendRate); RecordDispatch(last, spendRate); }
        Accumulations(init) + [AccumulateBalance(last.name, last.balance)];
        { AccumulationsSnoc(init, last); }
        Accumulations(init + [last]);
        { assert init + [last] == records; }
        Accumulations(records);
      }
    }
  }

  /** The ledger sees exactly one setRate per record whose rate exceeds the spend rate, in record order. */
  lemma {:induction false} ReauthorizeSetsRates(records: seq<AccountRecord>, spendRate: Amount)
    ensures Requests(RecordsEffects(records, spendRate)) == RateRequests(records, spendRate)
    decreases |records|
  {
    if records != [] {
      var init := records[..|records| - 1];
      var last := records[|records| - 1];
      var lastRates := if last.rate > spendRate then [PostRate(last.name, spendRate)] else [];
      calc {
        Requests(RecordsEffects(records, spendRate));
        Requests(RecordsEffects(init, spendRate) + RecordEffects(last, spendRate));
        { RequestsAppend(RecordsEffects(init, spendRate), RecordEffects(last, spendRate)); }
        Requests(RecordsEffects(init, spendRate)) + Requests(RecordEffects(last, spendRate));
        { ReauthorizeSetsRates(init, spendRate); RecordDispatch(last, spendRate); }
        RateRequests(init, spendRate) + lastRates;
        { RateRequestsSnoc(init, last, spendRate); }
        RateRequests(init + [last], spendRate);
        { assert init + [last] == records; }
        RateRequests(records, spendRate);
      }
    }
  }

  /** setRate is requested for an account iff one of its records has a rate above the spend rate. */
  lemma {:induction false} RateRequestedIff(records: seq<AccountRecord>, spendRate: Amount, k: AccountKey)
    ensures PostRate(k, spendRate) in RateRequests(records, spendRate)
        <==> exists i :: 0 <= i < |records| && records[i].name == k && records[i].rate > spendRate
    decreases |records|
  {
    if records != [] {
      RateRequestedIff(records[1..], spendRate, k);
      if exists i :: 0 <= i < |records| && records[i].name == k && records[i].rate > spendRate {
        var i :| 0 <= i < |records| && records[i].name == k && records[i].rate > spendRate;
        if i > 0 {
          assert records[1..][i - 1] == records[i];
        }
      }
      if exists i :: 0 <= i < |records[1..]| && records[1..][i].name == k && records[1..][i].rate > spendRate {
        var i :| 0 <= i < |records[1..]| && records[1..][i].name == k && records[1..][i].rate > spendRate;
        assert records[i + 1] == records[1..][i];
      }
    }
  }
}
