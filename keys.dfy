/**
 * Pure helpers of the local banker: how a caller's key is scoped to this
 * replica, the dot-free form of the suffix used in per-account metric names,
 * and the account type announced when registering an account.
 */
module Keys {
  import opened Ledger

  /** The role of a banker instance (GoAccountType in the source). */
  datatype Role = Router | PostAuction

  /**
   * The key under which this replica stores `key`: the caller's key, a
   * colon, then the instance's account suffix.
   */
  function FullKey(key: AccountKey, suffix: string): (full: AccountKey)
    ensures |full| == |key| + 1 + |suffix|
    ensures full[..|key|] == key
    ensures full[|key|] == ':'
    ensures full[|key| + 1..] == suffix
  {
    key + ":" + suffix
  }

  /** Within one replica, distinct caller keys stay distinct once suffixed. */
  lemma FullKeyInjective(k1: AccountKey, k2: AccountKey, suffix: string)
    requires FullKey(k1, suffix) == FullKey(k2, suffix)
    ensures k1 == k2
  {
  }

  /** The suffix with every '.' replaced by '_' (std::replace in the constructor). */
  function NoDot(s: string): (r: string)
    ensures |r| == |s|
    ensures forall i :: 0 <= i < |s| ==> r[i] == (if s[i] == '.' then '_' else s[i])
  {
    if s == [] then []
    else
      var c := s[|s| - 1];
      NoDot(s[..|s| - 1]) + [if c == '.' then '_' else c]
  }

  /** No dot survives, and a dot-free suffix is left as it is. */
  lemma NoDotProperties(s: string)
    ensures '.' !in NoDot(s)
    ensures NoDot(s) == s <==> '.' !in s
    ensures NoDot(NoDot(s)) == NoDot(s)
  {
  }

  /** The accountType sent with a registration request. */
  function AccountType(role: Role): (tag: string)
    ensures tag == "Router" <==> role == Router
    ensures tag == "PostAuction" <==> role == PostAuction
  {
    match role
    case Router => "Router"
    case PostAuction => "PostAuction"
  }

  /** The periodic protocols a banker runs. */
  datatype Protocol = Reauthorize | SpendUpdate | Registration

  /**
   * Routers reauthorize, post-auction bankers report spend, and every
   * banker sweeps its pending registrations.
   */
  function PeriodicProtocols(role: Role): (ps: set<Protocol>)
    ensures Registration in ps
    ensures Reauthorize in ps <==> role == Router
    ensures SpendUpdate in ps <==> role == PostAuction
    ensures |ps| == 2
  {
    match role
    case Router => {Reauthorize, Registration}
    case PostAuction => {SpendUpdate, Registration}
  }
}
