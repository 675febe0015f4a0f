/**
 * The application state store of frontend/src/store/useAppStore.ts: wallet
 * fields, the credit profile, the list of circle addresses and a per-circle
 * cache, with the five actions that overwrite them.
 *
 * `State` and `Step` say what each action does to a snapshot of the fields;
 * the class `Store` holds the fields and its methods are proved against `Step`.
 * The cached circle data is untyped in the source, so it is a type parameter.
 */
module AppStore {
  import opened Wrappers

  datatype CreditProfile = CreditProfile(
    creditScore: int,
    circlesJoined: int,
    circlesCompleted: int,
    onTimePayments: int,
    latePayments: int,
    defaults: int,
    hasDefaulted: bool)

  /** The store's fields at one moment. */
  datatype State<Data> = State(
    isConnected: bool,
    address: Option<string>,
    chainId: Option<int>,
    creditProfile: Option<CreditProfile>,
    circles: seq<string>,
    circleData: map<string, Data>)

  datatype Action<Data> =
    | SetWallet(address: Option<string>, chainId: Option<int>)
    | SetCreditProfile(profile: Option<CreditProfile>)
    | SetCircles(circles: seq<string>)
    | UpdateCircleData(key: string, data: Data)
    | Reset

  /** `!!address`: present and not the empty string. */
  predicate Truthy(address: Option<string>)
  {
    address.Some? && address.value != ""
  }

  /** The store as created: disconnected, nothing known, both caches empty. */
  function Initial<Data>(): (s: State<Data>)
    ensures !s.isConnected && s.address == None && s.chainId == None && s.creditProfile == None
    ensures s.circles == [] && s.circleData == map[]
    ensures WalletConsistent(s)
  {
    State(false, None, None, None, [], map[])
  }

  /** What one action's `set` call merges into the state. */
  function Step<Data>(s: State<Data>, act: Action<Data>): State<Data>
  {
    match act
    case SetWallet(a, c) => s.(isConnected := Truthy(a), address := a, chainId := c)
    case SetCreditProfile(p) => s.(creditProfile := p)
    case SetCircles(cs) => s.(circles := cs)
    case UpdateCircleData(k, d) => s.(circleData := s.circleData[k := d])
    case Reset => Initial()
  }

  /** The state after a sequence of actions, in order. */
  function Run<Data>(s: State<Data>, acts: seq<Action<Data>>): State<Data>
    decreases |acts|
  {
    if acts == [] then s else Run(Step(s, acts[0]), acts[1..])
  }

  lemma {:induction false} RunAppend<Data>(s: State<Data>, acts: seq<Action<Data>>, act: Action<Data>)
    ensures Run(s, acts + [act]) == Step(Run(s, acts), act)
    decreases |acts|
  {
    if acts != [] {
      assert (acts + [act])[1..] == acts[1..] + [act];
      RunAppend(Step(s, acts[0]), acts[1..], act);
    }
  }

  /** `reset` after any sequence of actions, from any state, gives back the initial store. */
  lemma ResetRestoresInitial<Data>(s: State<Data>, acts: seq<Action<Data>>)
    ensures Run(s, acts + [Reset]) == Initial()
  {
    RunAppend(s, acts, Reset);
  }

  /** The wallet fields agree: connected exactly when an address is set and non-empty. */
  predicate WalletConsistent<Data>(s: State<Data>)
  {
    s.isConnected <==> Truthy(s.address)
  }

  /** Every action keeps the wallet fields consistent, so every reachable state has them consistent. */
  lemma {:induction false} WalletConsistentAlways<Data>(s: State<Data>, acts: seq<Action<Data>>)
    requires WalletConsistent(s)
    ensures WalletConsistent(Run(s, acts))
    decreases |acts|
  {
    if acts != [] {
      WalletConsistentAlways(Step(s, acts[0]), acts[1..]);
    }
  }

  /** Every state the store reaches from its initial state has consistent wallet fields. */
  lemma WalletConsistentReachable<Data>(acts: seq<Action<Data>>)
    ensures WalletConsistent(Run(Initial(), acts))
  {
    WalletConsistentAlways(Initial(), acts);
  }

  /** `setWallet` writes the three wallet fields and leaves the profile and both caches alone. */
  lemma SetWalletFrame<Data>(s: State<Data>, a: Option<string>, c: Option<int>)
    ensures var t := Step(s, SetWallet(a, c));
      && t.address == a && t.chainId == c
      && (t.isConnected <==> a.Some? && a.value != "")
      && t.creditProfile == s.creditProfile && t.circles == s.circles && t.circleData == s.circleData
  {
  }

  /** Writing one circle's cache entry changes that entry only. */
  lemma UpdateCircleDataFrame<Data>(s: State<Data>, k: string, d: Data)
    ensures var t := Step(s, UpdateCircleData(k, d));
      && k in t.circleData && t.circleData[k] == d
      && t.circleData.Keys == s.circleData.Keys + {k}
      && (forall k' :: k' in s.circleData && k' != k ==> t.circleData[k'] == s.circleData[k'])
      && t.(circleData := s.circleData) == s
  {
  }

  /** Two writes to the same circle's entry: the later one wins. */
  lemma UpdateCircleDataLastWriteWins<Data>(s: State<Data>, k: string, d1: Data, d2: Data)
    ensures Step(Step(s, UpdateCircleData(k, d1)), UpdateCircleData(k, d2)) == Step(s, UpdateCircleData(k, d2))
  {
  }

  /** The store object: one field per piece of state, one method per action. */
  class Store<Data> {
    var isConnected: bool
    var address: Option<string>
    var chainId: Option<int>
    var creditProfile: Option<CreditProfile>
    var circles: seq<string>
    var circleData: map<string, Data>

    function Snapshot(): State<Data>
      reads this
    {
      State(isConnected, address, chainId, creditProfile, circles, circleData)
    }

    constructor ()
      ensures Snapshot() == Initial()
    {
      isConnected, address, chainId := false, None, None;
      creditProfile, circles, circleData := None, [], map[];
    }

    method SetWallet(a: Option<string>, c: Option<int>)
      modifies this
      ensures Snapshot() == Step(old(Snapshot()), Action.SetWallet(a, c))
      ensures isConnected == Truthy(a) && address == a && chainId == c
      ensures creditProfile == old(creditProfile) && circles == old(circles) && circleData == old(circleData)
    {
      isConnected, address, chainId := Truthy(a), a, c;
    }

    method SetCreditProfile(profile: Option<CreditProfile>)
      modifies this
      ensures Snapshot() == Step(old(Snapshot()), Action.SetCreditProfile(profile))
      ensures creditProfile == profile
      ensures Snapshot().(creditProfile := old(creditProfile)) == old(Snapshot())
    {
      creditProfile := profile;
    }

    method SetCircles(cs: seq<string>)
      modifies this
      ensures Snapshot() == Step(old(Snapshot()), Action.SetCircles(cs))
      ensures circles == cs
      ensures Snapshot().(circles := old(circles)) == old(Snapshot())
    {
      circles := cs;
    }

    method UpdateCircleData(k: string, d: Data)
      modifies this
      ensures Snapshot() == Step(old(Snapshot()), Action.UpdateCircleData(k, d))
      ensures circleData == old(circleData)[k := d]
      ensures Snapshot().(circleData := old(circleData)) == old(Snapshot())
    {
      circleData := circleData[k := d];
    }

    method Reset()
      modifies this
      ensures Snapshot() == Initial()
      ensures Snapshot() == Step(old(Snapshot()), Action.Reset)
    {
      isConnected, address, chainId := false, None, None;
      creditProfile, circles, circleData := None, [], map[];
    }
  }
}
