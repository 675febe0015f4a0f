/**
 * The payout-winner computation behind `POST /api/calculate-winner`
 * (backend/server.js): the parameter guard, the candidate reads with their
 * zero defaults, the three-level sort, the reconciliation with the winner the
 * circle contract has recorded, and the JSON response.
 *
 * Every contract read is an input: a `Chain` value holds what each read
 * returned, or the message of the error it threw.
 */
module Winner {
  import opened Wrappers
  import opened JsText

  /** One payout candidate after its reads: the address as the contract returned it, its weighted vote total, its credit score. */
  datatype Candidate = Candidate(address: string, votes: nat, creditScore: nat)

  /** A candidate as it appears in the JSON response: the integers as decimal strings. */
  datatype CandidateJson = CandidateJson(address: string, votes: string, creditScore: string)

  /** The outcome of one contract read: the decoded value, or the message of the error it threw. */
  datatype Read<T> = Returned(value: T) | Threw(message: string)

  /**
   * What the contract reads of one request return, for the request's circle and month.
   * `None` stands for a read that yields `null` or `undefined`.
   */
  datatype Chain = Chain(
    candidates: Read<Option<seq<string>>>,           // circle.getCandidates(month)
    registry: Read<string>,                          // circle.creditRegistry()
    votesOf: string -> Read<Option<nat>>,            // circle.getCandidateVotes(month, candidate)
    scoreOf: (string, string) -> Read<Option<nat>>,  // registry.getCreditScore(candidate), by registry address
    winner: Read<string>)                            // circle.getWinner(month)

  /** The request's `month` field: absent (`undefined`), JSON `null`, or an integer. */
  datatype MonthField = Absent | Null | Given(value: int)

  /** The request body; a `None` address is an absent or `null` field. */
  datatype Request = Request(circleAddress: Option<string>, month: MonthField)

  /** An HTTP reply: an error status with `{ error }`, or status 200 with `{ winner, candidates, month? }`. */
  datatype Response =
    | Failure(status: nat, error: string)
    | Success(winner: Option<string>, candidates: seq<CandidateJson>, month: Option<int>)

  const MissingParameters := "Missing circleAddress or month"
  /** The message of the TypeError that `BigInt(null)` throws (V8's wording). */
  const BigIntFromNull := "Cannot convert null to a BigInt"
  const ZeroAddress := "0x0000000000000000000000000000000000000000"

  // ---------------------------------------------------------------------------
  // Parameter guard

  /** `circleAddress` is truthy (present and non-empty) and `month` is not `undefined`; month 0 and `null` pass. */
  predicate HasParameters(req: Request)
  {
    req.circleAddress.Some? && req.circleAddress.value != "" && !req.month.Absent?
  }

  // ---------------------------------------------------------------------------
  // Candidate reads

  /** Both reads for `address` return; the votes read is awaited before the score read. */
  predicate ReadsSucceed(chain: Chain, registry: string, address: string)
  {
    chain.votesOf(address).Returned? && chain.scoreOf(registry, address).Returned?
  }

  /** The record built from the two reads; a read yielding nothing becomes 0 (`votes || 0n`). */
  function Fetched(chain: Chain, registry: string, address: string): Candidate
    requires ReadsSucceed(chain, registry, address)
  {
    Candidate(address,
              chain.votesOf(address).value.GetOr(0),
              chain.scoreOf(registry, address).value.GetOr(0))
  }

  /** The message of the first of the two reads for `address` that threw. */
  function FailureMessage(chain: Chain, registry: string, address: string): string
    requires !ReadsSucceed(chain, registry, address)
  {
    if chain.votesOf(address).Threw? then chain.votesOf(address).message
    else chain.scoreOf(registry, address).message
  }

  /**
   * The `Promise.all` over the candidate list: the records in list order when
   * every read returns, otherwise the error of a failing candidate (here the
   * first one in list order).
   */
  function FetchAll(chain: Chain, registry: string, addresses: seq<string>): (r: Read<seq<Candidate>>)
    ensures r.Returned? <==> forall i :: 0 <= i < |addresses| ==> ReadsSucceed(chain, registry, addresses[i])
    ensures r.Returned? ==> |r.value| == |addresses|
    ensures r.Returned? ==> forall i :: 0 <= i < |addresses| ==>
      && r.value[i].address == addresses[i]
      && r.value[i] == Fetched(chain, registry, addresses[i])
    ensures r.Threw? ==>
      exists i :: 0 <= i < |addresses| && !ReadsSucceed(chain, registry, addresses[i]) &&
        r.message == FailureMessage(chain, registry, addresses[i]) &&
        forall j :: 0 <= j < i ==> ReadsSucceed(chain, registry, addresses[j])
    decreases |addresses|
  {
    if addresses == [] then Returned([])
    else
      var a := addresses[0];
      if !ReadsSucceed(chain, registry, a) then Threw(FailureMessage(chain, registry, a))
      else
        match FetchAll(chain, registry, addresses[1..])
        case Threw(m) => Threw(m)
        case Returned(rest) => Returned([Fetched(chain, registry, a)] + rest)
  }

  /** How far the reads before sorting get. */
  datatype Gathered = NoCandidates | ReadFailed(message: string) | Gathered(data: seq<Candidate>)

  /**
   * getCandidates, the empty short-circuit, creditRegistry, then the per-candidate reads.
   * An empty or missing candidate list stops before any other read is looked at.
   */
  function Gather(chain: Chain): (g: Gathered)
    ensures g.NoCandidates? <==>
      chain.candidates.Returned? && (chain.candidates.value.None? || chain.candidates.value.value == [])
    ensures chain.candidates.Threw? ==> g == ReadFailed(chain.candidates.message)
    ensures g.Gathered? <==>
      && chain.candidates.Returned? && chain.candidates.value.Some? && chain.candidates.value.value != []
      && chain.registry.Returned?
      && forall i :: 0 <= i < |chain.candidates.value.value| ==>
           ReadsSucceed(chain, chain.registry.value, chain.candidates.value.value[i])
    ensures (chain.candidates.Returned? && chain.candidates.value.Some? && chain.candidates.value.value != []
             && chain.registry.Threw?) ==>
      g == ReadFailed(chain.registry.message)
    ensures (chain.candidates.Returned? && chain.candidates.value.Some? && chain.candidates.value.value != []
             && chain.registry.Returned? && FetchAll(chain, chain.registry.value, chain.candidates.value.value).Threw?) ==>
      g == ReadFailed(FetchAll(chain, chain.registry.value, chain.candidates.value.value).message)
    ensures g.Gathered? ==>
      && chain.candidates.Returned? && chain.candidates.value.Some? && chain.registry.Returned?
      && |g.data| == |chain.candidates.value.value| > 0
      && (forall i :: 0 <= i < |g.data| ==>
           ReadsSucceed(chain, chain.registry.value, chain.candidates.value.value[i]))
      && forall i :: 0 <= i < |g.data| ==>
           g.data[i] == Fetched(chain, chain.registry.value, chain.candidates.value.value[i])
  {
    match chain.candidates
    case Threw(m) => ReadFailed(m)
    case Returned(list) =>
      if list.None? || list.value == [] then NoCandidates
      else
        match chain.registry
        case Threw(m) => ReadFailed(m)
        case Returned(registry) =>
          match FetchAll(chain, registry, list.value)
          case Threw(m) => ReadFailed(m)
          case Returned(data) => Gathered(data)
  }

  // ---------------------------------------------------------------------------
  // The sort comparator

  /** Equal votes, equal credit score and the same lower-cased address: the comparator's only tie. */
  predicate SameKey(a: Candidate, b: Candidate)
  {
    a.votes == b.votes && a.creditScore == b.creditScore && Lower(a.address) == Lower(b.address)
  }

  /**
   * The comparator handed to `Array.prototype.sort`: negative puts `a` first.
   * Votes descending, then credit score descending, then lower-cased address ascending.
   */
  function Compare(a: Candidate, b: Candidate): (r: int)
    ensures r == -1 || r == 0 || r == 1
    ensures r == 0 <==> SameKey(a, b)
  {
    if a.votes > b.votes then -1
    else if a.votes < b.votes then 1
    else if a.creditScore > b.creditScore then -1
    else if a.creditScore < b.creditScore then 1
    else
      var x, y := Lower(a.address), Lower(b.address);
      LexTrichotomy(x, y);
      LexIrreflexive(x);
      if LexLess(x, y) then -1
      else if LexLess(y, x) then 1
      else 0
  }

  /** More votes sorts first, whatever the credit scores. */
  lemma MoreVotesFirst(a: Candidate, b: Candidate)
    requires a.votes > b.votes
    ensures Compare(a, b) < 0 && Compare(b, a) > 0
  {
  }

  /** With equal votes, the higher credit score sorts first. */
  lemma HigherScoreFirst(a: Candidate, b: Candidate)
    requires a.votes == b.votes && a.creditScore > b.creditScore
    ensures Compare(a, b) < 0 && Compare(b, a) > 0
  {
  }

  /** With equal votes and scores, the lexicographically smaller lower-cased address sorts first. */
  lemma SmallerAddressFirst(a: Candidate, b: Candidate)
    requires a.votes == b.votes && a.creditScore == b.creditScore
    requires LexLess(Lower(a.address), Lower(b.address))
    ensures Compare(a, b) < 0 && Compare(b, a) > 0
  {
    LexAsymmetric(Lower(a.address), Lower(b.address));
  }

  /** Swapping the arguments negates the answer. */
  lemma CompareAntisymmetric(a: Candidate, b: Candidate)
    ensures Compare(b, a) == -Compare(a, b)
  {
    var x, y := Lower(a.address), Lower(b.address);
    if LexLess(x, y) {
      LexAsymmetric(x, y);
    }
  }

  /** "Sorts no later than" is transitive, so the comparator is consistent for `sort`. */
  lemma CompareTransitive(a: Candidate, b: Candidate, c: Candidate)
    requires Compare(a, b) <= 0 && Compare(b, c) <= 0
    ensures Compare(a, c) <= 0
  {
    var x, y, z := Lower(a.address), Lower(b.address), Lower(c.address);
    if a.votes == c.votes && a.creditScore == c.creditScore {
      if LexLess(x, y) {
        LexAsymmetric(x, y);
      }
      if LexLess(y, z) {
        LexAsymmetric(y, z);
      }
      LexNotLessTransitive(x, y, z);
    }
  }

  // ---------------------------------------------------------------------------
  // The sort

  /** Every pair, not only every adjacent pair, is in comparator order. */
  ghost predicate Sorted(s: seq<Candidate>)
  {
    forall i, j :: 0 <= i < j < |s| ==> Compare(s[i], s[j]) <= 0
  }

  ghost predicate SortedPermutation(s: seq<Candidate>, data: seq<Candidate>)
  {
    Sorted(s) && multiset(s) == multiset(data)
  }

  /** Records that share a lower-cased address are the same record (addresses are unique in a candidate list). */
  ghost predicate UniqueAddresses(s: seq<Candidate>)
  {
    forall x, y :: x in s && y in s && Lower(x.address) == Lower(y.address) ==> x == y
  }

  method Swap(a: array<Candidate>, i: int, j: int)
    requires 0 <= i < j < a.Length
    modifies a
    ensures a[..] == old(a[..])[i := old(a[j])][j := old(a[i])]
    ensures multiset(a[..]) == multiset(old(a[..]))
  {
    a[i], a[j] := a[j], a[i];
  }

  /** The first `n` entries of the array are in comparator order. */
  ghost predicate SortedPrefix(a: array<Candidate>, n: int)
    reads a
  {
    forall p, q :: 0 <= p < q < n <= a.Length ==> Compare(a[p], a[q]) <= 0
  }

  /** One insertion step: moves `a[i]` left past every entry that sorts after it. */
  method Insert(a: array<Candidate>, i: int)
    requires 0 <= i < a.Length && SortedPrefix(a, i)
    modifies a
    ensures SortedPrefix(a, i + 1)
    ensures multiset(a[..]) == multiset(old(a[..]))
    ensures a[i + 1..] == old(a[i + 1..])
  {
    var j := i;
    while 0 < j && Compare(a[j - 1], a[j]) > 0
      invariant 0 <= j <= i
      invariant a[i + 1..] == old(a[i + 1..])
      invariant forall p, q :: 0 <= p < q <= i && p != j && q != j ==> Compare(a[p], a[q]) <= 0
      invariant forall q :: j < q <= i ==> Compare(a[j], a[q]) < 0
      invariant multiset(a[..]) == multiset(old(a[..]))
    {
      CompareAntisymmetric(a[j - 1], a[j]);
      Swap(a, j - 1, j);
      j := j - 1;
    }
    if 0 < j {
      BeforeInsertedEntry(a[..], j);
    }
  }

  /** Where the insertion stops, every entry before the neighbour also sorts no later than the inserted one. */
  lemma BeforeInsertedEntry(s: seq<Candidate>, j: int)
    requires 0 < j < |s| && Compare(s[j - 1], s[j]) <= 0
    ensures forall p :: 0 <= p < j - 1 && Compare(s[p], s[j - 1]) <= 0 ==> Compare(s[p], s[j]) <= 0
  {
    forall p | 0 <= p < j - 1 && Compare(s[p], s[j - 1]) <= 0
      ensures Compare(s[p], s[j]) <= 0
    {
      CompareTransitive(s[p], s[j - 1], s[j]);
    }
  }

  /** `candidateData.sort(Compare)`, in place; an insertion sort, which like `sort` is stable. */
  method SortCandidates(a: array<Candidate>)
    modifies a
    ensures Sorted(a[..])
    ensures multiset(a[..]) == multiset(old(a[..]))
  {
    var i := 0;
    while i < a.Length
      invariant 0 <= i <= a.Length
      invariant SortedPrefix(a, i)
      invariant multiset(a[..]) == multiset(old(a[..]))
    {
      Insert(a, i);
      i := i + 1;
    }
  }

  /** The head of a sorted list sorts no later than any of its entries. */
  lemma SortedHeadPrecedes(s: seq<Candidate>, k: int)
    requires Sorted(s) && 0 <= k < |s|
    ensures Compare(s[0], s[k]) <= 0
  {
  }

  lemma SortedTail(s: seq<Candidate>)
    requires Sorted(s) && s != []
    ensures Sorted(s[1..])
  {
  }

  /** Two sorted arrangements of the same records with unique addresses start with the same record. */
  lemma SortedHeadsAgree(s: seq<Candidate>, t: seq<Candidate>)
    requires Sorted(s) && Sorted(t) && s != [] && t != []
    requires multiset(s) == multiset(t)
    requires UniqueAddresses(s)
    ensures s[0] == t[0]
  {
    assert s[0] in multiset(t) && t[0] in multiset(s);
    var k :| 0 <= k < |t| && t[k] == s[0];
    var j :| 0 <= j < |s| && s[j] == t[0];
    SortedHeadPrecedes(s, j);
    SortedHeadPrecedes(t, k);
    CompareAntisymmetric(s[0], t[0]);
    assert s[0] in s && t[0] in s;
  }

  /**
   * Given unique addresses, the sorted order is a total order with no ties, so
   * there is exactly one sorted arrangement of the fetched records: the result
   * does not depend on the order the reads came back in.
   */
  lemma {:induction false} SortedUnique(s: seq<Candidate>, t: seq<Candidate>)
    requires Sorted(s) && Sorted(t)
    requires multiset(s) == multiset(t)
    requires UniqueAddresses(s)
    ensures s == t
    decreases |s|
  {
    assert |s| == |multiset(s)| == |multiset(t)| == |t|;
    if s != [] {
      SortedHeadsAgree(s, t);
      TailsPermutation(s, t);
      SortedTail(s);
      SortedTail(t);
      UniqueTail(s);
      SortedUnique(s[1..], t[1..]);
      assert s == [s[0]] + s[1..] && t == [t[0]] + t[1..];
    }
  }

  /** Dropping the same first record from two permutations leaves permutations. */
  lemma TailsPermutation(s: seq<Candidate>, t: seq<Candidate>)
    requires s != [] && t != [] && s[0] == t[0] && multiset(s) == multiset(t)
    ensures multiset(s[1..]) == multiset(t[1..])
  {
    assert s == [s[0]] + s[1..] && t == [t[0]] + t[1..];
    assert multiset(s) == multiset{s[0]} + multiset(s[1..]);
    assert multiset(t) == multiset{t[0]} + multiset(t[1..]);
    assert multiset(s[1..]) == multiset(s) - multiset{s[0]} == multiset(t) - multiset{t[0]} == multiset(t[1..]);
  }

  lemma UniqueTail(s: seq<Candidate>)
    requires s != [] && UniqueAddresses(s)
    ensures UniqueAddresses(s[1..])
  {
    forall x | x in s[1..] ensures x in s { }
  }

  /**
   * The expected winner sorts no later than any fetched candidate, and with
   * unique addresses strictly before every other one.
   */
  lemma ExpectedWinnerIsBest(s: seq<Candidate>, data: seq<Candidate>)
    requires SortedPermutation(s, data) && s != []
    ensures forall c :: c in data ==> Compare(s[0], c) <= 0
    ensures UniqueAddresses(data) ==> forall c :: c in data && c != s[0] ==> Compare(s[0], c) < 0
  {
    forall c | c in data
      ensures Compare(s[0], c) <= 0
    {
      assert c in multiset(s);
      var k :| 0 <= k < |s| && s[k] == c;
      SortedHeadPrecedes(s, k);
    }
    assert s[0] in multiset(data);
  }

  // ---------------------------------------------------------------------------
  // Reconciliation with the contract's recorded winner

  /** `getWinner` returned a usable address: not thrown, not the zero address, not empty. */
  predicate Finalized(read: Read<string>)
  {
    read.Returned? && read.value != ZeroAddress && read.value != ""
  }

  /** `contractWinner || expectedWinner`, where a thrown read or the zero address leaves `contractWinner` null. */
  function ReportedWinner(contract: Read<string>, expected: Option<string>): (w: Option<string>)
    ensures Finalized(contract) ==> w == Some(contract.value)
    ensures !Finalized(contract) ==> w == expected
  {
    var contractWinner: Option<string> :=
      match contract
      case Threw(_) => None
      case Returned(v) => if v == ZeroAddress then None else Some(v);
    if contractWinner.Some? && contractWinner.value != "" then contractWinner else expected
  }

  // ---------------------------------------------------------------------------
  // Response mapping

  /** `{ address, votes: votes.toString(), creditScore: creditScore.toString() }`; the numbers read back exactly. */
  function ToJson(c: Candidate): (j: CandidateJson)
    ensures j.address == c.address
    ensures j.votes == ToDecimal(c.votes) && j.creditScore == ToDecimal(c.creditScore)
    ensures IsDigits(j.votes) && DecimalValue(j.votes) == c.votes
    ensures IsDigits(j.creditScore) && DecimalValue(j.creditScore) == c.creditScore
  {
    DecimalRoundTrip(c.votes);
    DecimalRoundTrip(c.creditScore);
    CandidateJson(c.address, ToDecimal(c.votes), ToDecimal(c.creditScore))
  }

  function ToJsonAll(s: seq<Candidate>): (r: seq<CandidateJson>)
    ensures |r| == |s|
    ensures forall i :: 0 <= i < |s| ==> r[i] == ToJson(s[i])
  {
    seq(|s|, i requires 0 <= i < |s| => ToJson(s[i]))
  }

  /** Distinct records never serialise to the same JSON entry. */
  lemma ToJsonInjective(a: Candidate, b: Candidate)
    requires ToJson(a) == ToJson(b)
    ensures a == b
  {
  }

  // ---------------------------------------------------------------------------
  // The handler

  /**
   * `POST /api/calculate-winner`. A thrown read anywhere before the reply
   * becomes status 500 with the error's message; a thrown `getWinner` does not.
   */
  method CalculateWinner(req: Request, chain: Chain) returns (resp: Response)
    ensures !HasParameters(req) ==> resp == Failure(400, MissingParameters)
    ensures HasParameters(req) && req.month.Null? ==> resp == Failure(500, BigIntFromNull)
    ensures HasParameters(req) && req.month.Given? && Gather(chain).ReadFailed? ==>
      resp == Failure(500, Gather(chain).message)
    ensures HasParameters(req) && req.month.Given? && Gather(chain).NoCandidates? ==>
      resp == Success(None, [], None)
    ensures HasParameters(req) && req.month.Given? && Gather(chain).Gathered? ==>
      exists s: seq<Candidate> :: s != [] && SortedPermutation(s, Gather(chain).data) &&
        resp == Success(ReportedWinner(chain.winner, Some(s[0].address)), ToJsonAll(s), Some(req.month.value))
  {
    if !HasParameters(req) {
      return Failure(400, MissingParameters);
    }
    if req.month.Null? {
      // `BigInt(month)` in the arguments of the first read throws before any read is made
      return Failure(500, BigIntFromNull);
    }
    var gathered := Gather(chain);
    match gathered
    case ReadFailed(m) =>
      resp := Failure(500, m);
    case NoCandidates =>
      resp := Success(None, [], None);
    case Gathered(data) =>
      var a := new Candidate[|data|](i requires 0 <= i < |data| => data[i]);
      assert a[..] == data;
      SortCandidates(a);
      var expected := if a.Length > 0 then Some(a[0].address) else None;
      resp := Success(ReportedWinner(chain.winner, expected), ToJsonAll(a[..]), Some(req.month.value));
      assert a[..] != [] && SortedPermutation(a[..], data);
  }
}
