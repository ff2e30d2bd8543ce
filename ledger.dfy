/**
 * What the local banker can observe of its two collaborators: the remote
 * ledger service (reached by HTTP requests) and the local account store
 * (reached by calls). Both are opaque here; an operation of the banker is
 * described by the ordered list of effects it emits towards them.
 */
module Ledger {

  /** An account key in its rendered, colon-separated form. */
  type AccountKey = string

  /** A monetary value in micro-units (a 64-bit signed count in the source). */
  type Amount = int

  /** The HTTP status the response handlers treat as success. */
  const HttpOk: int := 200

  /** The response body after JSON decoding, or the decoder's failure. */
  datatype Decoded<T> = Parsed(value: T) | ParseError

  /** Requests sent to the remote ledger service, one constructor per endpoint. */
  datatype Request =
    | PostAccount(accountName: AccountKey, accountType: string)  // POST /accounts
    | GetAccount(name: AccountKey)                               // GET /accounts/<name>
    | PostSpendUpdate(accounts: set<AccountKey>)                 // POST /spendupdate
    | PostReauthorize(names: set<AccountKey>)                    // POST /reauthorize/1
    | PostRate(name: AccountKey, rate: Amount)                   // POST /accounts/<name>/rate

  /** Calls into the account store that change it. */
  datatype StoreCall =
    | AddFromJson(body: string)
    | ReplaceFromJson(body: string)
    | AccumulateBalance(key: AccountKey, balance: Amount)
    | SetStoreSpendRate(rate: Amount)
    | StoreBid(key: AccountKey, price: Amount)
    | StoreWin(key: AccountKey, price: Amount)

  datatype Effect = Send(request: Request) | Call(call: StoreCall)

  /** The requests among `effs`, in order. */
  function Requests(effs: seq<Effect>): (rs: seq<Request>)
    ensures |rs| <= |effs|
    ensures forall r :: r in rs <==> Send(r) in effs
  {
    if effs == [] then []
    else
      var last := effs[|effs| - 1];
      Requests(effs[..|effs| - 1]) + (if last.Send? then [last.request] else [])
  }

  /** The store calls among `effs`, in order. */
  function StoreCalls(effs: seq<Effect>): (cs: seq<StoreCall>)
    ensures |cs| <= |effs|
    ensures forall c :: c in cs <==> Call(c) in effs
  {
    if effs == [] then []
    else
      var last := effs[|effs| - 1];
      StoreCalls(effs[..|effs| - 1]) + (if last.Call? then [last.call] else [])
  }

  lemma {:induction false} RequestsAppend(a: seq<Effect>, b: seq<Effect>)
    ensures Requests(a + b) == Requests(a) + Requests(b)
    decreases |b|
  {
    if b != [] {
      var b' := b[..|b| - 1];
      assert (a + b)[..|a + b| - 1] == a + b';
      RequestsAppend(a, b');
    } else {
      assert a + b == a;
    }
  }

  lemma {:induction false} StoreCallsAppend(a: seq<Effect>, b: seq<Effect>)
    ensures StoreCalls(a + b) == StoreCalls(a) + StoreCalls(b)
    decreases |b|
  {
    if b != [] {
      var b' := b[..|b| - 1];
      assert (a + b)[..|a + b| - 1] == a + b';
      StoreCallsAppend(a, b');
    } else {
      assert a + b == a;
    }
  }

  /** Appending to a log keeps its first n entries and extends its tail. */
  lemma AppendSlices(a: seq<Effect>, b: seq<Effect>, n: nat)
    requires n <= |a|
    ensures (a + b)[..n] == a[..n]
    ensures (a + b)[n..] == a[n..] + b
  {
  }
}
