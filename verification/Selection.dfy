/** The blueprint selector as a function of its input
    (packages/domain/src/blueprint-selection.ts, `DeterministicBlueprintSelector.select`). */
module Selection {
  import opened Basics
  import opened Sequences
  import opened TextOrder
  import opened InterviewModel
  import opened Coverage
  import opened Interleave

  datatype SelectionInput = SelectionInput(
    questionCount: int,
    selectionSeed: string,
    eligible: seq<Question>,
    recent: set<Id>)

  datatype DomainShortage = DomainShortage(domain: Domain, required: nat, available: nat)

  datatype SelectionFault =
    | DuplicateCandidate(id: Id)
    | UnsupportedCount
    | BlankSeed
    | Shortage(shortages: seq<DomainShortage>, requiredTotal: int, availableTotal: nat)
    | FlexibleShortage
    | EmptyQueue
    | CoverageFailure(fault: CoverageFault)

  predicate HasId(questions: seq<Question>, id: Id) {
    questions != [] && (questions[0].questionId == id || HasId(questions[1..], id))
  }

  /** No id occurs twice. */
  predicate DistinctIds(questions: seq<Question>) {
    questions != [] ==> !HasId(questions[1..], questions[0].questionId) && DistinctIds(questions[1..])
  }

  /** The id of the first candidate whose id was seen before. */
  function FirstDuplicate(questions: seq<Question>, seen: set<Id>): Option<Id> {
    if questions == [] then None
    else if questions[0].questionId in seen then Some(questions[0].questionId)
    else FirstDuplicate(questions[1..], seen + {questions[0].questionId})
  }

  // ---------- ranking and picking ----------

  function Fresh(recent: set<Id>): Question -> bool {
    (q: Question) => q.questionId !in recent
  }

  function Stale(recent: set<Id>): Question -> bool {
    (q: Question) => q.questionId in recent
  }

  function CandidateKey(rank: Ranker, seed: string, purpose: Purpose): Question -> Key {
    (q: Question) => Key(rank([Text(seed), Text(PurposeText(purpose)), Text(DomainName(q.domain)), Text(q.questionId.text), Number(q.questionVersion)]),
                         0, q.questionId.text, q.questionVersion)
  }

  function Ranked(rank: Ranker, seed: string, purpose: Purpose, pool: seq<Question>): seq<Question> {
    SortBy(KeyOrder(CandidateKey(rank, seed, purpose)), pool)
  }

  /** The first `k` of one list, topped up from a second list when the first is too short. */
  function TopUp<T>(first: seq<T>, second: seq<T>, k: int): seq<T> {
    var head := Take(first, k);
    if |head| < k then head + Take(second, k - |head|) else head
  }

  /** The best `k` of a pool: first the ranked fresh candidates, then the ranked recent ones. */
  function Pick(rank: Ranker, seed: string, purpose: Purpose, recent: set<Id>, pool: seq<Question>, k: int): seq<Question> {
    TopUp(Ranked(rank, seed, purpose, Filter(Fresh(recent), pool)),
          Ranked(rank, seed, purpose, Filter(Stale(recent), pool)), k)
  }

  /** A rule that picks `k` questions of a pool for a purpose. */
  type Picker = (Purpose, seq<Question>, int) -> seq<Question>

  function SeededPicker(rank: Ranker, seed: string, recent: set<Id>): Picker {
    (purpose: Purpose, pool: seq<Question>, k: int) => Pick(rank, seed, purpose, recent, pool, k)
  }

  // ---------- quotas ----------

  function Pool(eligible: seq<Question>, d: Domain): seq<Question> {
    Filter(OfDomain(d), eligible)
  }

  /** Apart from `omitted`: domains with no candidate, and domains with only recent candidates. */
  function Unavailable(eligible: seq<Question>, omitted: Domain): Domain -> bool {
    (d: Domain) => d != omitted && Pool(eligible, d) == []
  }

  function Unavoidable(eligible: seq<Question>, recent: set<Id>, omitted: Domain): Domain -> bool {
    (d: Domain) => d != omitted && Pool(eligible, d) != [] && forall q :: q in Pool(eligible, d) ==> q.questionId in recent
  }

  function IndexOf<T(==)>(s: seq<T>, x: T): nat {
    if s == [] then 0 else if s[0] == x then 0 else 1 + IndexOf(s[1..], x)
  }

  function SeedKey(rank: Ranker, seed: string): Domain -> Key {
    (d: Domain) => Key(rank([Text(seed), Text(PurposeText(OmittedRank)), Text(DomainName(d))]), 0, DomainName(d), 0)
  }

  function SeedRank(rank: Ranker, seed: string, catalogue: seq<Domain>, d: Domain): nat {
    IndexOf(SortBy(KeyOrder(SeedKey(rank, seed)), catalogue), d)
  }

  /** Choices for the omitted domain: fewest unavailable domains, then fewest unavoidable recents, then seed. */
  function OmitKey(rank: Ranker, input: SelectionInput, catalogue: seq<Domain>): Domain -> Key {
    (d: Domain) => Key(|Filter(Unavailable(input.eligible, d), catalogue)|,
                       |Filter(Unavoidable(input.eligible, input.recent, d), catalogue)|,
                       "", SeedRank(rank, input.selectionSeed, catalogue, d))
  }

  function OmittedDomain(rank: Ranker, input: SelectionInput, catalogue: seq<Domain>): Domain
    requires catalogue != []
  {
    SortBy(KeyOrder(OmitKey(rank, input, catalogue)), catalogue)[0]
  }

  function AllBut(omitted: Domain): Domain -> nat {
    (d: Domain) => if d == omitted then 0 else 1
  }

  function Minimums(count: int): Domain -> nat {
    (d: Domain) => Minimum(count, d)
  }

  /** `blueprintDomainMinimums`: the number of questions reserved for each domain. */
  function Quota(rank: Ranker, input: SelectionInput, catalogue: seq<Domain>): Domain -> nat
    requires catalogue != []
  {
    if input.questionCount == 5 then AllBut(OmittedDomain(rank, input, catalogue))
    else Minimums(input.questionCount)
  }

  function ShortagesIn(eligible: seq<Question>, quota: Domain -> nat, domains: seq<Domain>): seq<DomainShortage> {
    if domains == [] then []
    else
      (if |Pool(eligible, domains[0])| < quota(domains[0])
       then [DomainShortage(domains[0], quota(domains[0]), |Pool(eligible, domains[0])|)] else [])
      + ShortagesIn(eligible, quota, domains[1..])
  }

  // ---------- the selection ----------

  /** The reserved questions of one domain. */
  function Reserved(pick: Picker, eligible: seq<Question>, quota: Domain -> nat): Domain -> seq<Question> {
    (d: Domain) => pick(CandidateRank, Pool(eligible, d), quota(d))
  }

  function Joined(parts: Domain -> seq<Question>, domains: seq<Domain>): seq<Question> {
    if domains == [] then [] else parts(domains[0]) + Joined(parts, domains[1..])
  }

  function NotAmong(reserved: seq<Question>): Question -> bool {
    (q: Question) => !HasId(reserved, q.questionId)
  }

  /** The candidates not reserved yet. */
  function Left(eligible: seq<Question>, reserved: seq<Question>): seq<Question> {
    Filter(NotAmong(reserved), eligible)
  }

  function QueuesOf(parts: Domain -> seq<Question>, extra: seq<Question>, catalogue: seq<Domain>): Queues {
    map d | d in catalogue && parts(d) + Filter(OfDomain(d), extra) != [] :: parts(d) + Filter(OfDomain(d), extra)
  }

  function Numbered(questions: seq<Question>): (r: seq<BlueprintItem>)
    ensures |r| == |questions|
  {
    seq(|questions|, i requires 0 <= i < |questions| => BlueprintItem(i + 1, questions[i]))
  }

  /** The last two steps of the selector: derive the unassessed domain and validate the coverage. */
  function Finish(seed: string, count: int, ordered: seq<Question>, catalogue: seq<Domain>): Result<Blueprint, SelectionFault> {
    match DerivedOver(ordered, count, catalogue)
    case Err(fault) => Err(CoverageFailure(fault))
    case Ok(unassessed) =>
      match ProblemOver(count, ordered, unassessed, catalogue)
      case Some(fault) => Err(CoverageFailure(fault))
      case None => Ok(Blueprint(seed, unassessed, Numbered(ordered)))
  }

  /** The flexible questions on top of the reserved ones. */
  function Extra(pick: Picker, input: SelectionInput, reserved: seq<Question>): seq<Question> {
    pick(FlexibleRank, Left(input.eligible, reserved), input.questionCount - |reserved|)
  }

  /** Everything after the input checks. */
  ghost function Selected(pick: Picker, input: SelectionInput, catalogue: seq<Domain>, choose: Chooser, quota: Domain -> nat): Result<Blueprint, SelectionFault>
    requires Catalogue(catalogue) && Greedy(choose, catalogue)
  {
    var shortages := ShortagesIn(input.eligible, quota, catalogue);
    if shortages != [] || |input.eligible| < input.questionCount
    then Err(Shortage(shortages, input.questionCount, |input.eligible|))
    else
      var parts := Reserved(pick, input.eligible, quota);
      Arranged(input, parts, Extra(pick, input, Joined(parts, catalogue)), catalogue, choose)
  }

  /** The last steps: file the questions in queues, interleave the queues, check the coverage. */
  ghost function Arranged(input: SelectionInput, parts: Domain -> seq<Question>, extra: seq<Question>, catalogue: seq<Domain>,
                          choose: Chooser): Result<Blueprint, SelectionFault>
    requires Catalogue(catalogue) && Greedy(choose, catalogue)
  {
    if |extra| != input.questionCount - |Joined(parts, catalogue)| then Err(FlexibleShortage)
    else
      Finish(input.selectionSeed, input.questionCount,
             Interleaved(choose, catalogue, QueuesOf(parts, extra, catalogue), None, 0), catalogue)
  }

  /** `select` as a function: input checks in the order of the source, then the selection. */
  ghost function Select(rank: Ranker, input: SelectionInput, catalogue: seq<Domain>): Result<Blueprint, SelectionFault>
    requires Catalogue(catalogue)
  {
    match FirstDuplicate(input.eligible, {})
    case Some(id) => Err(DuplicateCandidate(id))
    case None =>
      if !SupportedCount(input.questionCount) then Err(UnsupportedCount)
      else if !NonBlank(input.selectionSeed) then Err(BlankSeed)
      else
        SeededIsGreedy(rank, input.selectionSeed, catalogue);
        SomeDomain(catalogue);
        Selected(SeededPicker(rank, input.selectionSeed, input.recent), input, catalogue,
                 SeededChooser(rank, input.selectionSeed, catalogue), Quota(rank, input, catalogue))
  }

  lemma SomeDomain(catalogue: seq<Domain>)
    requires Catalogue(catalogue)
    ensures catalogue != []
  {
    assert GoLanguage in catalogue;
  }

  // ---------- what a caller wants: a valid selection ----------

  /** Distinct eligible questions that the coverage validator accepts. */
  ghost predicate ValidSelection(count: int, eligible: seq<Question>, questions: seq<Question>) {
    && NoDup(questions)
    && (forall q :: q in questions ==> q in eligible)
    && Covers(count, questions)
  }

  function StaleCount(recent: set<Id>, questions: seq<Question>): nat {
    |Filter(Stale(recent), questions)|
  }

  function Questions(blueprint: Blueprint): (r: seq<Question>)
    ensures |r| == |blueprint.questions|
  {
    Map((item: BlueprintItem) => item.question, blueprint.questions)
  }
}

/** The theorems about the selector. */
module SelectionTheorems {
  import opened Basics
  import opened Sequences
  import opened TextOrder
  import opened InterviewModel
  import opened Coverage
  import opened Interleave
  import opened Selection

  // ---------- distinct ids ----------

  lemma {:induction false} HasIdMember(questions: seq<Question>, id: Id)
    ensures HasId(questions, id) <==> exists q :: q in questions && q.questionId == id
  {
    if questions != [] {
      HasIdMember(questions[1..], id);
      assert questions == [questions[0]] + questions[1..];
    }
  }

  lemma {:induction false} FirstDuplicateNone(questions: seq<Question>, seen: set<Id>)
    ensures FirstDuplicate(questions, seen) == None
            <==> DistinctIds(questions) && forall id :: id in seen ==> !HasId(questions, id)
  {
    if questions != [] {
      FirstDuplicateNone(questions[1..], seen + {questions[0].questionId});
    }
  }

  lemma {:induction false} DistinctPair(questions: seq<Question>, q: Question, r: Question)
    requires DistinctIds(questions) && q in questions && r in questions && q.questionId == r.questionId
    ensures q == r
  {
    HasIdMember(questions[1..], q.questionId);
    assert questions == [questions[0]] + questions[1..];
    if q in questions[1..] && r in questions[1..] {
      DistinctPair(questions[1..], q, r);
    }
  }

  lemma {:induction false} DistinctPart(eligible: seq<Question>, part: seq<Question>)
    requires DistinctIds(eligible) && NoDup(part) && forall q :: q in part ==> q in eligible
    ensures DistinctIds(part)
  {
    if part != [] {
      NoDupStep(part);
      var rest := part[1..];
      assert part == [part[0]] + rest;
      DistinctPart(eligible, rest);
      HasIdMember(rest, part[0].questionId);
      if HasId(rest, part[0].questionId) {
        var r :| r in rest && r.questionId == part[0].questionId;
        DistinctPair(eligible, part[0], r);
      }
    }
  }

  lemma {:induction false} DistinctNoDup(questions: seq<Question>)
    requires DistinctIds(questions)
    ensures NoDup(questions)
  {
    if questions != [] {
      NoDupStep(questions);
      DistinctNoDup(questions[1..]);
      HasIdMember(questions[1..], questions[0].questionId);
    }
  }

  lemma CandidatesTotal(rank: Ranker, seed: string, purpose: Purpose, pool: seq<Question>)
    requires DistinctIds(pool)
    ensures StrictTotalOn(KeyOrder(CandidateKey(rank, seed, purpose)), pool)
  {
    var key := CandidateKey(rank, seed, purpose);
    forall x, y | x in pool && y in pool && key(x) == key(y) ensures x == y {
      DistinctPair(pool, x, y);
    }
    KeyOrderTotal(key, pool);
  }

  // ---------- counting ----------

  /** Distinct elements drawn from `b` are no more than `b` has. */
  lemma NoDupFits<T>(a: seq<T>, b: seq<T>)
    requires NoDup(a) && forall x :: x in a ==> x in b
    ensures |a| <= |b|
  {
    NoDupCard(a);
    CardAtMost(b);
    SubsetCard(ToSet(a), ToSet(b));
  }

  lemma FilterFits<T(!new)>(p: T -> bool, a: seq<T>, b: seq<T>)
    requires NoDup(a) && forall x :: x in a ==> x in b
    ensures |Filter(p, a)| <= |Filter(p, b)|
  {
    FilterNoDup(p, a);
    FilterMembers(p, a);
    FilterMembers(p, b);
    NoDupFits(Filter(p, a), Filter(p, b));
  }

  lemma {:induction false} FilterSwap<T(!new)>(p: T -> bool, q: T -> bool, s: seq<T>)
    ensures Filter(p, Filter(q, s)) == Filter(q, Filter(p, s))
  {
    if s != [] {
      var rest := s[1..];
      FilterSwap(p, q, rest);
      FilterCons(p, s[0], Filter(q, rest));
      FilterCons(q, s[0], Filter(p, rest));
      assert Filter(q, s) == (if q(s[0]) then [s[0]] + Filter(q, rest) else Filter(q, rest));
      assert Filter(p, s) == (if p(s[0]) then [s[0]] + Filter(p, rest) else Filter(p, rest));
    }
  }

  lemma {:induction false} FreshOrStale(recent: set<Id>, s: seq<Question>)
    ensures |Filter(Fresh(recent), s)| + |Filter(Stale(recent), s)| == |s|
  {
    if s != [] {
      FreshOrStale(recent, s[1..]);
    }
  }

  lemma LeftMembers(eligible: seq<Question>, part: seq<Question>)
    requires DistinctIds(eligible) && forall q :: q in part ==> q in eligible
    ensures forall q :: q in Left(eligible, part) <==> q in eligible && q !in part
  {
    FilterMembers(NotAmong(part), eligible);
    forall q | q in eligible ensures HasId(part, q.questionId) <==> q in part {
      HasIdMember(part, q.questionId);
      if HasId(part, q.questionId) {
        var r :| r in part && r.questionId == q.questionId;
        DistinctPair(eligible, q, r);
      }
    }
  }

  lemma SplitMembers(p: Question -> bool, whole: seq<Question>, left: seq<Question>, part: seq<Question>)
    requires forall q :: q in left <==> q in whole && q !in part
    requires forall q :: q in part ==> q in whole
    ensures ToSet(Filter(p, left) + Filter(p, part)) == ToSet(Filter(p, whole))
    ensures forall q :: q in Filter(p, left) ==> q !in Filter(p, part)
  {
    FilterMembers(p, left);
    FilterMembers(p, part);
    FilterMembers(p, whole);
    var a, b, c := ToSet(Filter(p, left)), ToSet(Filter(p, part)), ToSet(Filter(p, whole));
    assert ToSet(Filter(p, left) + Filter(p, part)) == a + b;
    assert a + b == c;
  }

  /** A sequence split in two: the parts' filtered sizes add up. */
  lemma SplitCount(p: Question -> bool, whole: seq<Question>, left: seq<Question>, part: seq<Question>)
    requires NoDup(whole) && NoDup(left) && NoDup(part)
    requires forall q :: q in left <==> q in whole && q !in part
    requires forall q :: q in part ==> q in whole
    ensures |Filter(p, left)| + |Filter(p, part)| == |Filter(p, whole)|
  {
    FilterNoDup(p, left);
    FilterNoDup(p, part);
    FilterNoDup(p, whole);
    SplitMembers(p, whole, left, part);
    NoDupConcat(Filter(p, left), Filter(p, part));
    SameElements(Filter(p, left) + Filter(p, part), Filter(p, whole));
  }

  /** Removing distinct members by id removes exactly that many. */
  lemma FilterOutCount(eligible: seq<Question>, part: seq<Question>, p: Question -> bool)
    requires DistinctIds(eligible) && NoDup(part) && forall q :: q in part ==> q in eligible
    ensures |Filter(p, Left(eligible, part))| == |Filter(p, eligible)| - |Filter(p, part)|
  {
    LeftMembers(eligible, part);
    DistinctNoDup(eligible);
    FilterNoDup(NotAmong(part), eligible);
    SplitCount(p, eligible, Left(eligible, part), part);
  }

  function SumD(f: Domain -> int, domains: seq<Domain>): int {
    if domains == [] then 0 else f(domains[0]) + SumD(f, domains[1..])
  }

  lemma {:induction false} SumDOrder(f: Domain -> int, g: Domain -> int, domains: seq<Domain>)
    requires forall d :: d in domains ==> f(d) <= g(d)
    ensures SumD(f, domains) <= SumD(g, domains)
  {
    if domains != [] {
      assert forall d :: d in domains[1..] ==> d in domains;
      SumDOrder(f, g, domains[1..]);
    }
  }

  lemma {:induction false} CountsStep(q: Question, s: seq<Question>, domains: seq<Domain>)
    requires NoDup(domains)
    ensures SumD(CountsOf([q] + s), domains) == SumD(CountsOf(s), domains) + if q.domain in domains then 1 else 0
  {
    if domains != [] {
      NoDupStep(domains);
      CountsStep(q, s, domains[1..]);
      FilterCons(OfDomain(domains[0]), q, s);
    }
  }

  lemma {:induction false} CountsZero(domains: seq<Domain>)
    ensures SumD(CountsOf([]), domains) == 0
  {
    if domains != [] {
      CountsZero(domains[1..]);
    }
  }

  lemma {:induction false} CountsTotal(questions: seq<Question>, catalogue: seq<Domain>)
    requires Catalogue(catalogue)
    ensures SumD(CountsOf(questions), catalogue) == |questions|
  {
    if questions == [] {
      CountsZero(catalogue);
    } else {
      CountsTotal(questions[1..], catalogue);
      CountsStep(questions[0], questions[1..], catalogue);
      assert questions == [questions[0]] + questions[1..];
    }
  }

  // ---------- what a pick is ----------

  /** The sizes of a pick of `k`: as many as asked for and available, recent ones only when fresh ones
      run out. */
  predicate PickSizes(k: int, poolSize: nat, freshSize: nat, size: nat, staleSize: nat) {
    0 <= k ==>
      && size == (if k <= poolSize then k else poolSize)
      && staleSize == (if size <= freshSize then 0 else size - freshSize)
  }

  /** Distinct members of the pool, in the right numbers. */
  ghost predicate GoodPick(recent: set<Id>, pool: seq<Question>, k: int, r: seq<Question>) {
    && NoDup(r)
    && (forall q :: q in r ==> q in pool)
    && PickSizes(k, |pool|, |Filter(Fresh(recent), pool)|, |r|, StaleCount(recent, r))
  }

  lemma TakeFacts<T(!new)>(s: seq<T>, n: int)
    requires NoDup(s)
    ensures NoDup(Take(s, n)) && forall x :: x in Take(s, n) ==> x in s
    ensures |Take(s, n)| == if n <= 0 then 0 else if n >= |s| then |s| else n
  {
    if 0 < n < |s| {
      NoDupPrefix(s, n);
    }
  }

  lemma {:induction false} FilterNone<T(!new)>(p: T -> bool, s: seq<T>)
    requires forall x :: x in s ==> !p(x)
    ensures Filter(p, s) == []
  {
    if s != [] {
      FilterNone(p, s[1..]);
    }
  }

  lemma {:induction false} FilterEvery<T(!new)>(p: T -> bool, s: seq<T>)
    requires forall x :: x in s ==> p(x)
    ensures Filter(p, s) == s
  {
    if s != [] {
      FilterEvery(p, s[1..]);
    }
  }

  lemma RankedFacts(rank: Ranker, seed: string, purpose: Purpose, pool: seq<Question>, p: Question -> bool)
    requires DistinctIds(pool)
    ensures var r := Ranked(rank, seed, purpose, Filter(p, pool));
            NoDup(r) && |r| == |Filter(p, pool)| && forall q :: q in r <==> q in pool && p(q)
  {
    DistinctNoDup(pool);
    FilterNoDup(p, pool);
    FilterMembers(p, pool);
    DistinctPart(pool, Filter(p, pool));
    CandidatesTotal(rank, seed, purpose, Filter(p, pool));
    SortedCopy(KeyOrder(CandidateKey(rank, seed, purpose)), Filter(p, pool));
  }

  lemma StaleTail(recent: set<Id>, a: seq<Question>, b: seq<Question>)
    requires forall q :: q in a ==> q.questionId !in recent
    requires forall q :: q in b ==> q.questionId in recent
    ensures StaleCount(recent, a + b) == |b|
  {
    FilterNone(Stale(recent), a);
    FilterEvery(Stale(recent), b);
    FilterAppend(Stale(recent), a, b);
  }

  lemma TopUpParts(recent: set<Id>, pool: seq<Question>, a: seq<Question>, b: seq<Question>)
    requires NoDup(a) && NoDup(b)
    requires forall q :: q in a ==> q in pool && q.questionId !in recent
    requires forall q :: q in b ==> q in pool && q.questionId in recent
    ensures NoDup(a + b) && (forall q :: q in a + b ==> q in pool) && StaleCount(recent, a + b) == |b|
  {
    NoDupConcat(a, b);
    StaleTail(recent, a, b);
  }

  lemma TopUpSplit<T(!new)>(first: seq<T>, second: seq<T>, k: int) returns (a: seq<T>, b: seq<T>)
    requires NoDup(first) && NoDup(second)
    ensures TopUp(first, second, k) == a + b && NoDup(a) && NoDup(b)
    ensures (forall x :: x in a ==> x in first) && (forall x :: x in b ==> x in second)
    ensures PickSizes(k, |first| + |second|, |first|, |a| + |b|, |b|)
  {
    a := Take(first, k);
    b := if |a| < k then Take(second, k - |a|) else [];
    TakeFacts(first, k);
    TakeFacts(second, k - |a|);
  }

  lemma TopUpIsGood(recent: set<Id>, pool: seq<Question>, first: seq<Question>, second: seq<Question>, k: int)
    requires NoDup(first) && NoDup(second) && |first| == |Filter(Fresh(recent), pool)| && |first| + |second| == |pool|
    requires forall q :: q in first ==> q in pool && q.questionId !in recent
    requires forall q :: q in second ==> q in pool && q.questionId in recent
    ensures GoodPick(recent, pool, k, TopUp(first, second, k))
  {
    var a, b := TopUpSplit(first, second, k);
    TopUpParts(recent, pool, a, b);
  }

  lemma PickIsGood(rank: Ranker, seed: string, purpose: Purpose, recent: set<Id>, pool: seq<Question>, k: int)
    ensures DistinctIds(pool) ==> GoodPick(recent, pool, k, Pick(rank, seed, purpose, recent, pool, k))
  {
    if DistinctIds(pool) {
      RankedFacts(rank, seed, purpose, pool, Fresh(recent));
      RankedFacts(rank, seed, purpose, pool, Stale(recent));
      FreshOrStale(recent, pool);
      TopUpIsGood(recent, pool, Ranked(rank, seed, purpose, Filter(Fresh(recent), pool)),
                  Ranked(rank, seed, purpose, Filter(Stale(recent), pool)), k);
    }
  }

  ghost predicate GoodPicker(pick: Picker, recent: set<Id>) {
    forall purpose, pool, k {:trigger GoodPick(recent, pool, k, pick(purpose, pool, k))} ::
      DistinctIds(pool) ==> GoodPick(recent, pool, k, pick(purpose, pool, k))
  }

  lemma SeededIsGood(rank: Ranker, seed: string, recent: set<Id>)
    ensures GoodPicker(SeededPicker(rank, seed, recent), recent)
  {
    forall purpose, pool, k ensures DistinctIds(pool) ==> GoodPick(recent, pool, k, SeededPicker(rank, seed, recent)(purpose, pool, k)) {
      PickIsGood(rank, seed, purpose, recent, pool, k);
    }
  }

  // ---------- reserved questions, joined over the domains ----------

  /** Every part holds questions of its own domain. */
  ghost predicate Filed(parts: Domain -> seq<Question>) {
    forall d, q :: q in parts(d) ==> q.domain == d
  }

  lemma {:induction false} JoinedMembers(parts: Domain -> seq<Question>, domains: seq<Domain>)
    requires Filed(parts)
    ensures forall q :: q in Joined(parts, domains) <==> q.domain in domains && q in parts(q.domain)
  {
    if domains != [] {
      JoinedMembers(parts, domains[1..]);
      assert domains == [domains[0]] + domains[1..];
    }
  }

  lemma {:induction false} JoinedNoDup(parts: Domain -> seq<Question>, domains: seq<Domain>)
    requires Filed(parts) && NoDup(domains) && forall d :: NoDup(parts(d))
    ensures NoDup(Joined(parts, domains))
  {
    if domains != [] {
      NoDupStep(domains);
      JoinedNoDup(parts, domains[1..]);
      JoinedMembers(parts, domains[1..]);
      NoDupConcat(parts(domains[0]), Joined(parts, domains[1..]));
    }
  }

  lemma {:induction false} FiledFilter(parts: Domain -> seq<Question>, d: Domain, e: Domain)
    requires Filed(parts)
    ensures Filter(OfDomain(e), parts(d)) == if e == d then parts(d) else []
  {
    if e == d {
      FilterEvery(OfDomain(e), parts(d));
    } else {
      FilterNone(OfDomain(e), parts(d));
    }
  }

  lemma {:induction false} JoinedOfDomain(parts: Domain -> seq<Question>, domains: seq<Domain>, e: Domain)
    requires Filed(parts) && NoDup(domains)
    ensures Filter(OfDomain(e), Joined(parts, domains)) == if e in domains then parts(e) else []
  {
    if domains != [] {
      NoDupStep(domains);
      JoinedOfDomain(parts, domains[1..], e);
      FilterAppend(OfDomain(e), parts(domains[0]), Joined(parts, domains[1..]));
      FiledFilter(parts, domains[0], e);
    }
  }

  function Sizes(parts: Domain -> seq<Question>): Domain -> int {
    (d: Domain) => |parts(d)|
  }

  function Stales(recent: set<Id>, parts: Domain -> seq<Question>): Domain -> int {
    (d: Domain) => StaleCount(recent, parts(d))
  }

  lemma {:induction false} JoinedSums(recent: set<Id>, parts: Domain -> seq<Question>, domains: seq<Domain>)
    ensures |Joined(parts, domains)| == SumD(Sizes(parts), domains)
    ensures StaleCount(recent, Joined(parts, domains)) == SumD(Stales(recent, parts), domains)
  {
    if domains != [] {
      JoinedSums(recent, parts, domains[1..]);
      FilterAppend(Stale(recent), parts(domains[0]), Joined(parts, domains[1..]));
    }
  }

  // ---------- the cost of a selection ----------

  /** Recent questions a domain cannot avoid when it must contribute `low(d)` questions. */
  function StaleNeed(eligible: seq<Question>, recent: set<Id>, low: Domain -> nat): Domain -> int {
    (d: Domain) =>
      var available := |Filter(Fresh(recent), Pool(eligible, d))|;
      if low(d) <= available then 0 else low(d) - available
  }

  lemma DomainStale(eligible: seq<Question>, recent: set<Id>, low: nat, other: seq<Question>, d: Domain)
    requires NoDup(other) && forall q :: q in other ==> q in eligible
    requires CountIn(d, other) >= low
    ensures CountIn(d, Filter(Stale(recent), other)) >= low - |Filter(Fresh(recent), Pool(eligible, d))|
  {
    var mine := Filter(OfDomain(d), other);
    FilterNoDup(OfDomain(d), other);
    FilterMembers(OfDomain(d), other);
    FilterMembers(OfDomain(d), eligible);
    FilterFits(Fresh(recent), mine, Pool(eligible, d));
    FreshOrStale(recent, mine);
    FilterSwap(OfDomain(d), Stale(recent), other);
  }

  /** No selection that meets the lower bounds does better than these two counts. */
  lemma StaleLowerBound(eligible: seq<Question>, recent: set<Id>, catalogue: seq<Domain>, low: Domain -> nat, other: seq<Question>)
    requires Catalogue(catalogue) && NoDup(other) && forall q :: q in other ==> q in eligible
    requires forall d :: CountIn(d, other) >= low(d)
    ensures StaleCount(recent, other) >= SumD(StaleNeed(eligible, recent, low), catalogue)
  {
    var stale := Filter(Stale(recent), other);
    forall d | d in catalogue ensures StaleNeed(eligible, recent, low)(d) <= CountsOf(stale)(d) {
      DomainStale(eligible, recent, low(d), other, d);
    }
    SumDOrder(StaleNeed(eligible, recent, low), CountsOf(stale), catalogue);
    CountsTotal(stale, catalogue);
  }

  ghost predicate GoodPart(eligible: seq<Question>, recent: set<Id>, quota: Domain -> nat, parts: Domain -> seq<Question>, d: Domain) {
    GoodPick(recent, Pool(eligible, d), quota(d), parts(d))
  }

  /** How the selector composes its choice: good picks per domain, then a good pick from what is left. */
  ghost predicate Composed(input: SelectionInput, catalogue: seq<Domain>, quota: Domain -> nat,
                           parts: Domain -> seq<Question>, extra: seq<Question>) {
    && Catalogue(catalogue) && DistinctIds(input.eligible)
    && (forall d {:trigger GoodPart(input.eligible, input.recent, quota, parts, d)} ::
          GoodPart(input.eligible, input.recent, quota, parts, d))
    && GoodPick(input.recent, Left(input.eligible, Joined(parts, catalogue)),
                input.questionCount - |Joined(parts, catalogue)|, extra)
  }

  function Naturals(quota: Domain -> nat): Domain -> int {
    (d: Domain) => quota(d)
  }

  /** Enough candidates everywhere: the shortage check passes, and the quotas fit the question count. */
  ghost predicate Sufficient(input: SelectionInput, catalogue: seq<Domain>, quota: Domain -> nat) {
    && (forall d :: quota(d) <= |Pool(input.eligible, d)|)
    && input.questionCount <= |input.eligible|
    && SumD(Naturals(quota), catalogue) <= input.questionCount
  }

  lemma {:induction false} SumDSame(f: Domain -> int, g: Domain -> int, domains: seq<Domain>)
    requires forall d :: f(d) == g(d)
    ensures SumD(f, domains) == SumD(g, domains)
  {
    if domains != [] {
      SumDSame(f, g, domains[1..]);
    }
  }

  lemma PartFacts(eligible: seq<Question>, recent: set<Id>, quota: Domain -> nat, parts: Domain -> seq<Question>, d: Domain)
    requires GoodPart(eligible, recent, quota, parts, d) && quota(d) <= |Pool(eligible, d)|
    ensures |parts(d)| == quota(d) && NoDup(parts(d))
    ensures Stales(recent, parts)(d) == StaleNeed(eligible, recent, quota)(d)
    ensures forall q :: q in parts(d) ==> q.domain == d && q in eligible
  {
    FilterMembers(OfDomain(d), eligible);
  }

  lemma ReservedMembers(eligible: seq<Question>, parts: Domain -> seq<Question>, catalogue: seq<Domain>)
    requires Catalogue(catalogue) && Filed(parts) && (forall d :: NoDup(parts(d))) && (forall d, q :: q in parts(d) ==> q in eligible)
    ensures NoDup(Joined(parts, catalogue)) && forall q :: q in Joined(parts, catalogue) ==> q in eligible
  {
    JoinedMembers(parts, catalogue);
    JoinedNoDup(parts, catalogue);
  }

  lemma ReservedSizes(eligible: seq<Question>, recent: set<Id>, quota: Domain -> nat, parts: Domain -> seq<Question>, catalogue: seq<Domain>)
    requires forall d :: Sizes(parts)(d) == Naturals(quota)(d)
    requires forall d :: Stales(recent, parts)(d) == StaleNeed(eligible, recent, quota)(d)
    ensures |Joined(parts, catalogue)| == SumD(Naturals(quota), catalogue)
    ensures StaleCount(recent, Joined(parts, catalogue)) == SumD(StaleNeed(eligible, recent, quota), catalogue)
  {
    JoinedSums(recent, parts, catalogue);
    SumDSame(Sizes(parts), Naturals(quota), catalogue);
    SumDSame(Stales(recent, parts), StaleNeed(eligible, recent, quota), catalogue);
  }

  lemma PartsFacts(eligible: seq<Question>, recent: set<Id>, quota: Domain -> nat, parts: Domain -> seq<Question>)
    requires forall d {:trigger GoodPart(eligible, recent, quota, parts, d)} :: GoodPart(eligible, recent, quota, parts, d)
    requires forall d :: quota(d) <= |Pool(eligible, d)|
    ensures Filed(parts) && forall d :: |parts(d)| == quota(d) && NoDup(parts(d))
    ensures forall d, q :: q in parts(d) ==> q in eligible
    ensures forall d :: Stales(recent, parts)(d) == StaleNeed(eligible, recent, quota)(d)
  {
    forall d ensures |parts(d)| == quota(d) && NoDup(parts(d)) && Stales(recent, parts)(d) == StaleNeed(eligible, recent, quota)(d) {
      PartFacts(eligible, recent, quota, parts, d);
    }
    forall d, q | q in parts(d) ensures q.domain == d && q in eligible {
      PartFacts(eligible, recent, quota, parts, d);
    }
  }

  /** The reserved questions: distinct, eligible, exactly the quota each, and no more recents than needed. */
  lemma ReservedFacts(input: SelectionInput, catalogue: seq<Domain>, quota: Domain -> nat, parts: Domain -> seq<Question>, extra: seq<Question>)
    requires Composed(input, catalogue, quota, parts, extra) && Sufficient(input, catalogue, quota)
    ensures Filed(parts) && forall d :: |parts(d)| == quota(d)
    ensures var reserved := Joined(parts, catalogue);
            && NoDup(reserved)
            && (forall q :: q in reserved ==> q in input.eligible)
            && |reserved| == SumD(Naturals(quota), catalogue)
            && StaleCount(input.recent, reserved) == SumD(StaleNeed(input.eligible, input.recent, quota), catalogue)
  {
    PartsFacts(input.eligible, input.recent, quota, parts);
    ReservedMembers(input.eligible, parts, catalogue);
    ReservedSizes(input.eligible, input.recent, quota, parts, catalogue);
  }

  ghost predicate FreeIn(eligible: seq<Question>, reserved: seq<Question>, part: seq<Question>) {
    NoDup(part) && forall q :: q in part ==> q in eligible && q !in reserved
  }

  lemma ExtraMembers(eligible: seq<Question>, recent: set<Id>, reserved: seq<Question>, left: seq<Question>, extra: seq<Question>, k: int)
    ensures FreeIn(eligible, reserved, left) && GoodPick(recent, left, k, extra) ==> FreeIn(eligible, reserved, extra)
  {
  }

  lemma LeftFacts(eligible: seq<Question>, recent: set<Id>, reserved: seq<Question>)
    requires DistinctIds(eligible) && NoDup(reserved) && (forall q :: q in reserved ==> q in eligible)
    ensures FreeIn(eligible, reserved, Left(eligible, reserved))
    ensures |Left(eligible, reserved)| == |eligible| - |reserved|
    ensures |Filter(Fresh(recent), Left(eligible, reserved))|
            == |Filter(Fresh(recent), eligible)| - (|reserved| - StaleCount(recent, reserved))
  {
    LeftMembers(eligible, reserved);
    DistinctNoDup(eligible);
    FilterNoDup(NotAmong(reserved), eligible);
    LeftCount(eligible, reserved);
    FilterOutCount(eligible, reserved, Fresh(recent));
    FreshOrStale(recent, reserved);
  }

  lemma ExtraJoin(eligible: seq<Question>, recent: set<Id>, reserved: seq<Question>, extra: seq<Question>)
    requires NoDup(reserved) && (forall q :: q in reserved ==> q in eligible)
    ensures FreeIn(eligible, reserved, extra) ==> NoDup(reserved + extra) && (forall q :: q in reserved + extra ==> q in eligible)
    ensures StaleCount(recent, reserved + extra) == StaleCount(recent, reserved) + StaleCount(recent, extra)
  {
    if FreeIn(eligible, reserved, extra) {
      NoDupConcat(reserved, extra);
    }
    FilterAppend(Stale(recent), reserved, extra);
  }

  /** The whole choice: exactly the question count, and its number of recents in closed form. */
  lemma ChoiceFacts(input: SelectionInput, catalogue: seq<Domain>, quota: Domain -> nat, parts: Domain -> seq<Question>, extra: seq<Question>)
    requires Composed(input, catalogue, quota, parts, extra) && Sufficient(input, catalogue, quota)
    ensures var chosen := Joined(parts, catalogue) + extra;
            && |extra| == input.questionCount - |Joined(parts, catalogue)|
            && NoDup(chosen)
            && (forall q :: q in chosen ==> q in input.eligible)
            && StaleCount(input.recent, chosen)
               == Larger(SumD(StaleNeed(input.eligible, input.recent, quota), catalogue),
                         input.questionCount - |Filter(Fresh(input.recent), input.eligible)|)
  {
    ReservedFacts(input, catalogue, quota, parts, extra);
    var reserved := Joined(parts, catalogue);
    ExtraOnTopMembers(input, reserved, extra, input.questionCount - |reserved|);
    ExtraOnTopCounts(input, reserved, extra);
  }

  lemma ExtraOnTopMembers(input: SelectionInput, reserved: seq<Question>, extra: seq<Question>, k: int)
    requires DistinctIds(input.eligible) && NoDup(reserved) && (forall q :: q in reserved ==> q in input.eligible)
    ensures GoodPick(input.recent, Left(input.eligible, reserved), k, extra) ==>
              NoDup(reserved + extra) && forall q :: q in reserved + extra ==> q in input.eligible
  {
    LeftFacts(input.eligible, input.recent, reserved);
    ExtraMembers(input.eligible, input.recent, reserved, Left(input.eligible, reserved), extra, k);
    ExtraJoin(input.eligible, input.recent, reserved, extra);
  }

  lemma PickedSizes(recent: set<Id>, pool: seq<Question>, k: int, r: seq<Question>)
    ensures GoodPick(recent, pool, k, r) ==>
              PickSizes(k, |pool|, |Filter(Fresh(recent), pool)|, |r|, StaleCount(recent, r))
  {
  }

  /** What is left of the pool, by number. */
  lemma LeftNumbers(eligible: seq<Question>, recent: set<Id>, reserved: seq<Question>) returns (left: seq<Question>, unseen: nat)
    requires DistinctIds(eligible) && NoDup(reserved) && (forall q :: q in reserved ==> q in eligible)
    ensures left == Left(eligible, reserved) && |left| == |eligible| - |reserved|
    ensures unseen == |Filter(Fresh(recent), eligible)|
    ensures |Filter(Fresh(recent), left)| == unseen - (|reserved| - StaleCount(recent, reserved))
  {
    LeftFacts(eligible, recent, reserved);
    left, unseen := Left(eligible, reserved), |Filter(Fresh(recent), eligible)|;
  }

  lemma TopSizes(recent: set<Id>, count: int, eligible: nat, unseen: nat, left: seq<Question>, reserved: seq<Question>, extra: seq<Question>)
    requires |left| == eligible - |reserved| && |reserved| <= count <= eligible
    requires |Filter(Fresh(recent), left)| == unseen - (|reserved| - StaleCount(recent, reserved))
    ensures GoodPick(recent, left, count - |reserved|, extra) ==>
              && |extra| == count - |reserved|
              && StaleCount(recent, reserved + extra) == Larger(StaleCount(recent, reserved), count - unseen)
  {
    FilterAppend(Stale(recent), reserved, extra);
    PickedSizes(recent, left, count - |reserved|, extra);
  }

  lemma ExtraOnTopCounts(input: SelectionInput, reserved: seq<Question>, extra: seq<Question>)
    requires DistinctIds(input.eligible) && NoDup(reserved) && (forall q :: q in reserved ==> q in input.eligible)
    requires |reserved| <= input.questionCount <= |input.eligible|
    ensures GoodPick(input.recent, Left(input.eligible, reserved), input.questionCount - |reserved|, extra) ==>
              && |extra| == input.questionCount - |reserved|
              && StaleCount(input.recent, reserved + extra)
                 == Larger(StaleCount(input.recent, reserved), input.questionCount - |Filter(Fresh(input.recent), input.eligible)|)
  {
    var left, unseen := LeftNumbers(input.eligible, input.recent, reserved);
    TopSizes(input.recent, input.questionCount, |input.eligible|, unseen, left, reserved, extra);
  }

  function Larger(a: int, b: int): int {
    if a >= b then a else b
  }

  function Always(): Question -> bool {
    (q: Question) => true
  }

  lemma LeftCount(eligible: seq<Question>, part: seq<Question>)
    requires DistinctIds(eligible) && NoDup(part) && forall q :: q in part ==> q in eligible
    ensures |Left(eligible, part)| == |eligible| - |part|
  {
    FilterOutCount(eligible, part, Always());
    FilterEvery(Always(), Left(eligible, part));
    FilterEvery(Always(), eligible);
    FilterEvery(Always(), part);
  }

  // ---------- the interleaved order is a permutation of the choice ----------

  lemma QueueParts(parts: Domain -> seq<Question>, extra: seq<Question>, catalogue: seq<Domain>)
    requires Catalogue(catalogue) && Filed(parts)
    ensures forall d :: QueueOf(QueuesOf(parts, extra, catalogue), d) == parts(d) + Filter(OfDomain(d), extra)
    ensures WellFiled(QueuesOf(parts, extra, catalogue))
  {
    forall d ensures QueueOf(QueuesOf(parts, extra, catalogue), d) == parts(d) + Filter(OfDomain(d), extra) {
      assert d in catalogue;
    }
    forall d, q | q in QueueOf(QueuesOf(parts, extra, catalogue), d) ensures q.domain == d {
      FilterMembers(OfDomain(d), extra);
    }
  }

  lemma CountInOrder(choose: Chooser, catalogue: seq<Domain>, parts: Domain -> seq<Question>, extra: seq<Question>, x: Question)
    requires Catalogue(catalogue) && Greedy(choose, catalogue) && Filed(parts)
    ensures multiset(Interleaved(choose, catalogue, QueuesOf(parts, extra, catalogue), None, 0))[x]
            == multiset(Joined(parts, catalogue))[x] + multiset(extra)[x]
  {
    var queues := QueuesOf(parts, extra, catalogue);
    var p := OfDomain(x.domain);
    QueueParts(parts, extra, catalogue);
    InterleavedKeepsQueues(choose, catalogue, queues, None, 0, x.domain);
    JoinedOfDomain(parts, catalogue, x.domain);
    FilterMultiset(p, Interleaved(choose, catalogue, queues, None, 0));
    FilterMultiset(p, Joined(parts, catalogue));
    FilterMultiset(p, extra);
    assert x.domain in catalogue;
    assert multiset(parts(x.domain) + Filter(p, extra)) == multiset(parts(x.domain)) + multiset(Filter(p, extra));
  }

  lemma OrderIsPermutation(choose: Chooser, catalogue: seq<Domain>, parts: Domain -> seq<Question>, extra: seq<Question>)
    requires Catalogue(catalogue) && Greedy(choose, catalogue) && Filed(parts)
    ensures multiset(Interleaved(choose, catalogue, QueuesOf(parts, extra, catalogue), None, 0))
            == multiset(Joined(parts, catalogue) + extra)
  {
    forall x ensures multiset(Interleaved(choose, catalogue, QueuesOf(parts, extra, catalogue), None, 0))[x]
                     == multiset(Joined(parts, catalogue) + extra)[x] {
      CountInOrder(choose, catalogue, parts, extra, x);
    }
  }

  // ---------- the quotas ----------

  lemma {:induction false} NoShortages(eligible: seq<Question>, quota: Domain -> nat, domains: seq<Domain>)
    ensures ShortagesIn(eligible, quota, domains) == [] <==> forall d :: d in domains ==> quota(d) <= |Pool(eligible, d)|
  {
    if domains != [] {
      NoShortages(eligible, quota, domains[1..]);
      assert domains == [domains[0]] + domains[1..];
    }
  }

  lemma {:induction false} SumAllBut(omitted: Domain, domains: seq<Domain>)
    requires NoDup(domains)
    ensures SumD(Naturals(AllBut(omitted)), domains) == |domains| - if omitted in domains then 1 else 0
  {
    if domains != [] {
      NoDupStep(domains);
      SumAllBut(omitted, domains[1..]);
    }
  }

  /** The least possible total of the quotas is within the question count. */
  lemma QuotaTotals(count: int, catalogue: seq<Domain>, omitted: Domain)
    requires Catalogue(catalogue)
    ensures SumD(Naturals(AllBut(omitted)), catalogue) == 5
    ensures SumD(Naturals(Minimums(10)), catalogue) == 8
    ensures SumD(Naturals(Minimums(15)), catalogue) == 12
  {
    TheCatalogue();
    SameElements(catalogue, DOMAINS);
    assert omitted in catalogue;
    SumAllBut(omitted, catalogue);
    SumMinimums(10, catalogue);
    SumMinimums(15, catalogue);
    assert GoLanguage in catalogue && ConcurrencyRuntimePerformance in catalogue;
  }

  lemma {:induction false} SumMinimums(count: int, domains: seq<Domain>)
    requires NoDup(domains)
    ensures SumD(Naturals(Minimums(count)), domains)
            == if count == 15 then 2 * |domains|
               else |domains| + (if GoLanguage in domains then 1 else 0) + (if ConcurrencyRuntimePerformance in domains then 1 else 0)
  {
    if domains != [] {
      NoDupStep(domains);
      SumMinimums(count, domains[1..]);
    }
  }

  // ---------- the omitted domain ----------

  lemma {:induction false} IndexOfInjective<T>(s: seq<T>, x: T, y: T)
    requires x in s && y in s && IndexOf(s, x) == IndexOf(s, y)
    ensures x == y
  {
    if s[0] != x && s[0] != y {
      IndexOfInjective(s[1..], x, y);
    }
  }

  lemma OmitKeysDiffer(rank: Ranker, input: SelectionInput, catalogue: seq<Domain>)
    requires Catalogue(catalogue)
    ensures StrictTotalOn(KeyOrder(OmitKey(rank, input, catalogue)), catalogue)
  {
    var key := OmitKey(rank, input, catalogue);
    var seeded := SortBy(KeyOrder(SeedKey(rank, input.selectionSeed)), catalogue);
    SeedKeysTotal(rank, input.selectionSeed, catalogue);
    SortedCopy(KeyOrder(SeedKey(rank, input.selectionSeed)), catalogue);
    forall x, y | x in catalogue && y in catalogue && key(x) == key(y) ensures x == y {
      IndexOfInjective(seeded, x, y);
    }
    KeyOrderTotal(key, catalogue);
  }

  lemma SeedKeysTotal(rank: Ranker, seed: string, catalogue: seq<Domain>)
    ensures StrictTotalOn(KeyOrder(SeedKey(rank, seed)), catalogue)
  {
    forall x, y | SeedKey(rank, seed)(x) == SeedKey(rank, seed)(y) ensures x == y {
      DomainNamesDiffer(x, y);
    }
    KeyOrderTotal(SeedKey(rank, seed), catalogue);
  }

  /** The omitted domain minimizes first the unavailable domains, then the unavoidable recents. */
  lemma OmittedIsLeast(rank: Ranker, input: SelectionInput, catalogue: seq<Domain>, other: Domain)
    requires Catalogue(catalogue) && catalogue != []
    ensures var o := OmittedDomain(rank, input, catalogue);
            var e, r := input.eligible, input.recent;
            || |Filter(Unavailable(e, o), catalogue)| < |Filter(Unavailable(e, other), catalogue)|
            || (|Filter(Unavailable(e, o), catalogue)| == |Filter(Unavailable(e, other), catalogue)|
                && |Filter(Unavoidable(e, r, o), catalogue)| <= |Filter(Unavoidable(e, r, other), catalogue)|)
  {
    var less := KeyOrder(OmitKey(rank, input, catalogue));
    OmitKeysDiffer(rank, input, catalogue);
    SortedCopy(less, catalogue);
    assert other in catalogue;
    SortedFront(less, SortBy(less, catalogue), other);
  }

  lemma {:induction false} NeedWhenOmitting(eligible: seq<Question>, recent: set<Id>, omitted: Domain, domains: seq<Domain>)
    ensures SumD(StaleNeed(eligible, recent, AllBut(omitted)), domains)
            == |Filter(Unavailable(eligible, omitted), domains)| + |Filter(Unavoidable(eligible, recent, omitted), domains)|
  {
    if domains != [] {
      NeedWhenOmitting(eligible, recent, omitted, domains[1..]);
      AllRecent(recent, Pool(eligible, domains[0]));
    }
  }

  lemma AllRecent(recent: set<Id>, pool: seq<Question>)
    ensures (forall q :: q in pool ==> q.questionId in recent) <==> |Filter(Fresh(recent), pool)| == 0
  {
    if forall q :: q in pool ==> q.questionId in recent {
      FilterNone(Fresh(recent), pool);
    } else {
      var q :| q in pool && q.questionId !in recent;
      FilterMembers(Fresh(recent), pool);
      assert q in Filter(Fresh(recent), pool);
    }
  }

  lemma NothingUnavailable(eligible: seq<Question>, omitted: Domain, catalogue: seq<Domain>)
    requires Catalogue(catalogue)
    ensures |Filter(Unavailable(eligible, omitted), catalogue)| == 0
            <==> forall d :: AllBut(omitted)(d) <= |Pool(eligible, d)|
  {
    var p := Unavailable(eligible, omitted);
    FilterMembers(p, catalogue);
    if |Filter(p, catalogue)| == 0 {
      forall d ensures AllBut(omitted)(d) <= |Pool(eligible, d)| {
        assert d in catalogue && d !in Filter(p, catalogue);
      }
    } else {
      assert Filter(p, catalogue)[0] in Filter(p, catalogue);
    }
  }

  // ---------- the theorems ----------

  /** A valid selection has a lower bound per domain: the fixed minimums, or one for all but its own
      missing domain. */
  lemma ValidLowerBound(input: SelectionInput, catalogue: seq<Domain>, other: seq<Question>) returns (low: Domain -> nat)
    requires Catalogue(catalogue) && SupportedCount(input.questionCount)
    requires ValidSelection(input.questionCount, input.eligible, other)
    ensures forall d :: low(d) <= CountIn(d, other) <= |Pool(input.eligible, d)|
    ensures if input.questionCount == 5 then exists o :: low == AllBut(o) else low == Minimums(input.questionCount)
  {
    if input.questionCount == 5 {
      var o := OneMissing(other);
      low := AllBut(o);
    } else {
      low := Minimums(input.questionCount);
    }
    forall d ensures CountIn(d, other) <= |Pool(input.eligible, d)| {
      FilterFits(OfDomain(d), other, input.eligible);
    }
  }

  /** If any valid selection exists, the shortage check passes. */
  lemma QuotaSuffices(rank: Ranker, input: SelectionInput, catalogue: seq<Domain>, other: seq<Question>)
    requires Catalogue(catalogue) && catalogue != [] && SupportedCount(input.questionCount)
    requires ValidSelection(input.questionCount, input.eligible, other)
    ensures Sufficient(input, catalogue, Quota(rank, input, catalogue))
  {
    var low := ValidLowerBound(input, catalogue, other);
    NoDupFits(other, input.eligible);
    var ours := OmittedDomain(rank, input, catalogue);
    QuotaTotals(input.questionCount, catalogue, ours);
    if input.questionCount == 5 {
      var theirs :| low == AllBut(theirs);
      OmittedIsLeast(rank, input, catalogue, theirs);
      NothingUnavailable(input.eligible, theirs, catalogue);
      NothingUnavailable(input.eligible, ours, catalogue);
    }
  }

  lemma OmittedNeedsLeast(rank: Ranker, input: SelectionInput, catalogue: seq<Domain>, theirs: Domain)
    requires Catalogue(catalogue) && catalogue != []
    requires forall d :: AllBut(theirs)(d) <= |Pool(input.eligible, d)|
    ensures SumD(StaleNeed(input.eligible, input.recent, AllBut(OmittedDomain(rank, input, catalogue))), catalogue)
            <= SumD(StaleNeed(input.eligible, input.recent, AllBut(theirs)), catalogue)
  {
    var ours := OmittedDomain(rank, input, catalogue);
    OmittedIsLeast(rank, input, catalogue, theirs);
    NothingUnavailable(input.eligible, theirs, catalogue);
    NeedWhenOmitting(input.eligible, input.recent, theirs, catalogue);
    NeedWhenOmitting(input.eligible, input.recent, ours, catalogue);
  }

  /** The recents any valid selection needs, compared with the recents the quotas need. */
  lemma OtherNeeds(rank: Ranker, input: SelectionInput, catalogue: seq<Domain>, other: seq<Question>, low: Domain -> nat)
    requires Catalogue(catalogue) && catalogue != []
    requires NoDup(other) && (forall q :: q in other ==> q in input.eligible)
    requires forall d :: low(d) <= CountIn(d, other) <= |Pool(input.eligible, d)|
    requires if input.questionCount == 5 then exists o :: low == AllBut(o) else low == Minimums(input.questionCount)
    ensures SumD(StaleNeed(input.eligible, input.recent, Quota(rank, input, catalogue)), catalogue) <= StaleCount(input.recent, other)
  {
    StaleLowerBound(input.eligible, input.recent, catalogue, low, other);
    if input.questionCount == 5 {
      var theirs :| low == AllBut(theirs);
      OmittedNeedsLeast(rank, input, catalogue, theirs);
    }
  }

  lemma FreshAreLimited(eligible: seq<Question>, recent: set<Id>, other: seq<Question>)
    requires NoDup(other) && (forall q :: q in other ==> q in eligible)
    ensures StaleCount(recent, other) >= |other| - |Filter(Fresh(recent), eligible)|
  {
    FreshOrStale(recent, other);
    FilterFits(Fresh(recent), other, eligible);
  }

  /** The quotas ask for no more recents than any valid selection uses. */
  lemma QuotaNeedsLeast(rank: Ranker, input: SelectionInput, catalogue: seq<Domain>, other: seq<Question>)
    requires Catalogue(catalogue) && catalogue != [] && SupportedCount(input.questionCount)
    requires ValidSelection(input.questionCount, input.eligible, other)
    ensures SumD(StaleNeed(input.eligible, input.recent, Quota(rank, input, catalogue)), catalogue) <= StaleCount(input.recent, other)
  {
    var low := ValidLowerBound(input, catalogue, other);
    OtherNeeds(rank, input, catalogue, other, low);
  }

  lemma PoolDistinct(eligible: seq<Question>, d: Domain)
    requires DistinctIds(eligible)
    ensures DistinctIds(Pool(eligible, d))
  {
    DistinctNoDup(eligible);
    FilterNoDup(OfDomain(d), eligible);
    FilterMembers(OfDomain(d), eligible);
    DistinctPart(eligible, Pool(eligible, d));
  }

  lemma LeftDistinct(eligible: seq<Question>, reserved: seq<Question>)
    requires DistinctIds(eligible)
    ensures DistinctIds(Left(eligible, reserved))
  {
    DistinctNoDup(eligible);
    FilterNoDup(NotAmong(reserved), eligible);
    FilterMembers(NotAmong(reserved), eligible);
    DistinctPart(eligible, Left(eligible, reserved));
  }

  /** The selector composes good picks. */
  lemma SelectorComposes(pick: Picker, input: SelectionInput, catalogue: seq<Domain>, quota: Domain -> nat)
    returns (parts: Domain -> seq<Question>, extra: seq<Question>)
    requires Catalogue(catalogue) && DistinctIds(input.eligible) && GoodPicker(pick, input.recent)
    ensures parts == Reserved(pick, input.eligible, quota)
    ensures extra == Extra(pick, input, Joined(parts, catalogue))
    ensures Composed(input, catalogue, quota, parts, extra)
  {
    parts := Reserved(pick, input.eligible, quota);
    forall d ensures GoodPart(input.eligible, input.recent, quota, parts, d) {
      PoolDistinct(input.eligible, d);
      assert GoodPick(input.recent, Pool(input.eligible, d), quota(d), pick(CandidateRank, Pool(input.eligible, d), quota(d)));
    }
    var reserved := Joined(parts, catalogue);
    LeftDistinct(input.eligible, reserved);
    var left, k := Left(input.eligible, reserved), input.questionCount - |reserved|;
    extra := Extra(pick, input, reserved);
    assert GoodPick(input.recent, left, k, pick(FlexibleRank, left, k));
  }

  lemma PermutedFacts(recent: set<Id>, count: int, a: seq<Question>, b: seq<Question>)
    requires multiset(a) == multiset(b) && NoDup(a) && Covers(count, a)
    ensures NoDup(b) && (forall q :: q in b <==> q in a) && Covers(count, b) && StaleCount(recent, a) == StaleCount(recent, b)
  {
    NoDupPermuted(a, b);
    forall q ensures q in b <==> q in a {
      assert q in ToSet(a) <==> q in ToSet(b);
    }
    forall d ensures CountIn(d, a) == CountIn(d, b) {
      FilterPermuted(OfDomain(d), a, b);
      assert |multiset(Filter(OfDomain(d), a))| == |Filter(OfDomain(d), a)|;
      assert |multiset(Filter(OfDomain(d), b))| == |Filter(OfDomain(d), b)|;
    }
    FilterPermuted(Stale(recent), a, b);
    assert |multiset(Filter(Stale(recent), a))| == StaleCount(recent, a);
    assert |multiset(Filter(Stale(recent), b))| == StaleCount(recent, b);
  }

  /** The composed choice covers the domains, for the fixed minimums and for one omitted domain. */
  lemma ChoiceCovers(input: SelectionInput, catalogue: seq<Domain>, quota: Domain -> nat, parts: Domain -> seq<Question>, extra: seq<Question>)
    requires Composed(input, catalogue, quota, parts, extra) && Sufficient(input, catalogue, quota)
    requires SupportedCount(input.questionCount)
    requires QuotaFor(input.questionCount, quota)
    ensures Covers(input.questionCount, Joined(parts, catalogue) + extra)
  {
    var reserved := Joined(parts, catalogue);
    ReservedFacts(input, catalogue, quota, parts, extra);
    ChoiceFacts(input, catalogue, quota, parts, extra);
    if input.questionCount == 5 {
      var o :| quota == AllBut(o);
      QuotaTotals(5, catalogue, o);
    }
    forall d ensures CountIn(d, reserved + extra) == quota(d) + CountIn(d, extra) {
      assert d in catalogue;
      JoinedOfDomain(parts, catalogue, d);
      FilterAppend(OfDomain(d), reserved, extra);
    }
  }

  /** Finishing a covering order always succeeds, with the right unassessed domain. */
  lemma FinishSucceeds(seed: string, count: int, ordered: seq<Question>, catalogue: seq<Domain>) returns (b: Blueprint)
    requires SupportedCount(count) && Covers(count, ordered) && Catalogue(catalogue)
    ensures Finish(seed, count, ordered, catalogue) == Ok(b)
    ensures b.selectionSeed == seed && Questions(b) == ordered && RightlyUnassessed(count, ordered, b.unassessedDomain)
    ensures b.questions == Numbered(ordered)
  {
    VerdictOver(count, ordered, None, catalogue);
    var unassessed := DerivedOver(ordered, count, catalogue).value;
    VerdictOver(count, ordered, unassessed, catalogue);
    QuestionsOfNumbered(seed, unassessed, ordered);
    b := Blueprint(seed, unassessed, Numbered(ordered));
  }

  lemma QuestionsOfNumbered(seed: string, unassessed: Option<Domain>, ordered: seq<Question>)
    ensures Questions(Blueprint(seed, unassessed, Numbered(ordered))) == ordered
  {
  }

  ghost predicate QuotaFor(count: int, quota: Domain -> nat) {
    if count == 5 then exists o :: quota == AllBut(o) else quota == Minimums(count)
  }

  /** A valid, alternating order whose number of recents is the closed form. */
  ghost predicate GoodOrder(input: SelectionInput, catalogue: seq<Domain>, quota: Domain -> nat, ordered: seq<Question>) {
    && ValidSelection(input.questionCount, input.eligible, ordered)
    && NoNeighbours(ordered)
    && StaleCount(input.recent, ordered)
       == Larger(SumD(StaleNeed(input.eligible, input.recent, quota), catalogue),
                 input.questionCount - |Filter(Fresh(input.recent), input.eligible)|)
  }

  /** The interleaved choice is such an order. */
  lemma OrderedFacts(input: SelectionInput, catalogue: seq<Domain>, choose: Chooser, quota: Domain -> nat,
                     parts: Domain -> seq<Question>, extra: seq<Question>)
    requires Catalogue(catalogue) && Greedy(choose, catalogue)
    requires Sufficient(input, catalogue, quota) && SupportedCount(input.questionCount) && QuotaFor(input.questionCount, quota)
    ensures Composed(input, catalogue, quota, parts, extra) ==>
              && |extra| == input.questionCount - |Joined(parts, catalogue)|
              && GoodOrder(input, catalogue, quota, Interleaved(choose, catalogue, QueuesOf(parts, extra, catalogue), None, 0))
  {
    if Composed(input, catalogue, quota, parts, extra) {
      var ordered := Interleaved(choose, catalogue, QueuesOf(parts, extra, catalogue), None, 0);
      ReservedFacts(input, catalogue, quota, parts, extra);
      ChoiceFacts(input, catalogue, quota, parts, extra);
      ChoiceCovers(input, catalogue, quota, parts, extra);
      OrderIsPermutation(choose, catalogue, parts, extra);
      PermutedFacts(input.recent, input.questionCount, Joined(parts, catalogue) + extra, ordered);
      CoveredAlternates(choose, catalogue, QueuesOf(parts, extra, catalogue), parts, extra, input.questionCount);
    }
  }

  lemma SelectedUnfolds(pick: Picker, input: SelectionInput, catalogue: seq<Domain>, choose: Chooser, quota: Domain -> nat,
                        parts: Domain -> seq<Question>, extra: seq<Question>)
    requires Catalogue(catalogue) && Greedy(choose, catalogue)
    requires ShortagesIn(input.eligible, quota, catalogue) == [] && input.questionCount <= |input.eligible|
    requires parts == Reserved(pick, input.eligible, quota)
    requires extra == Extra(pick, input, Joined(parts, catalogue))
    ensures Selected(pick, input, catalogue, choose, quota) == Arranged(input, parts, extra, catalogue, choose)
  {
  }

  /** Past the shortage check the selector finishes a valid, alternating order of known cost. */
  lemma SelectedOrder(pick: Picker, input: SelectionInput, catalogue: seq<Domain>, choose: Chooser, quota: Domain -> nat)
    returns (ordered: seq<Question>)
    requires Catalogue(catalogue) && Greedy(choose, catalogue) && DistinctIds(input.eligible) && GoodPicker(pick, input.recent)
    requires SupportedCount(input.questionCount) && Sufficient(input, catalogue, quota) && QuotaFor(input.questionCount, quota)
    ensures Selected(pick, input, catalogue, choose, quota) == Finish(input.selectionSeed, input.questionCount, ordered, catalogue)
    ensures GoodOrder(input, catalogue, quota, ordered)
  {
    var parts, extra := SelectorComposes(pick, input, catalogue, quota);
    OrderedFacts(input, catalogue, choose, quota, parts, extra);
    NoShortages(input.eligible, quota, catalogue);
    SelectedUnfolds(pick, input, catalogue, choose, quota, parts, extra);
    ordered := Interleaved(choose, catalogue, QueuesOf(parts, extra, catalogue), None, 0);
  }

  /** What the selector returns once the shortage check has passed. */
  lemma SelectedFacts(pick: Picker, input: SelectionInput, catalogue: seq<Domain>, choose: Chooser, quota: Domain -> nat)
    returns (b: Blueprint)
    requires Catalogue(catalogue) && Greedy(choose, catalogue) && DistinctIds(input.eligible) && GoodPicker(pick, input.recent)
    requires SupportedCount(input.questionCount) && Sufficient(input, catalogue, quota) && QuotaFor(input.questionCount, quota)
    ensures Selected(pick, input, catalogue, choose, quota) == Ok(b)
    ensures b.selectionSeed == input.selectionSeed && b.questions == Numbered(Questions(b))
    ensures GoodOrder(input, catalogue, quota, Questions(b))
    ensures RightlyUnassessed(input.questionCount, Questions(b), b.unassessedDomain)
  {
    var ordered := SelectedOrder(pick, input, catalogue, choose, quota);
    b := FinishSucceeds(input.selectionSeed, input.questionCount, ordered, catalogue);
  }

  lemma CoveredAlternates(choose: Chooser, catalogue: seq<Domain>, queues: Queues, parts: Domain -> seq<Question>, extra: seq<Question>, count: int)
    requires Catalogue(catalogue) && Greedy(choose, catalogue) && Filed(parts) && SupportedCount(count)
    requires queues == QueuesOf(parts, extra, catalogue)
    requires Covers(count, Interleaved(choose, catalogue, queues, None, 0))
    ensures NoNeighbours(Interleaved(choose, catalogue, queues, None, 0))
  {
    QueueParts(parts, extra, catalogue);
    forall d ensures 2 * |QueueOf(queues, d)| <= Held(queues, catalogue) + 1 {
      InterleavedKeepsQueues(choose, catalogue, queues, None, 0, d);
      NoMajority(count, Interleaved(choose, catalogue, queues, None, 0), d);
    }
    AlternatesIffBalanced(choose, catalogue, queues);
  }

  lemma QuotaShape(rank: Ranker, input: SelectionInput, catalogue: seq<Domain>)
    requires catalogue != []
    ensures QuotaFor(input.questionCount, Quota(rank, input, catalogue))
  {
    assert input.questionCount == 5 ==> Quota(rank, input, catalogue) == AllBut(OmittedDomain(rank, input, catalogue));
  }

  lemma PassedChecks(rank: Ranker, input: SelectionInput, catalogue: seq<Domain>)
    requires Catalogue(catalogue) && catalogue != [] && SupportedCount(input.questionCount)
    requires ShortagesIn(input.eligible, Quota(rank, input, catalogue), catalogue) == [] && input.questionCount <= |input.eligible|
    ensures Sufficient(input, catalogue, Quota(rank, input, catalogue))
  {
    NoShortages(input.eligible, Quota(rank, input, catalogue), catalogue);
    QuotaTotals(input.questionCount, catalogue, OmittedDomain(rank, input, catalogue));
    forall d ensures d in catalogue {}
  }

  /** Failure completeness: on distinct ids, a nonblank seed and a supported count, the selector returns a
      blueprint exactly when some valid selection exists, and otherwise reports the shortage. None of its
      later failures - a second shortage, an empty queue, the final coverage check - can happen. */
  lemma SelectFailsOnlyForShortage(rank: Ranker, input: SelectionInput, catalogue: seq<Domain>)
    requires Catalogue(catalogue) && DistinctIds(input.eligible)
    requires SupportedCount(input.questionCount) && NonBlank(input.selectionSeed)
    ensures Select(rank, input, catalogue).Ok?
            <==> exists other :: ValidSelection(input.questionCount, input.eligible, other)
    ensures Select(rank, input, catalogue).Err? ==> Select(rank, input, catalogue).error.Shortage?
  {
    FirstDuplicateNone(input.eligible, {});
    SomeDomain(catalogue);
    var quota := Quota(rank, input, catalogue);
    QuotaShape(rank, input, catalogue);
    SeededIsGreedy(rank, input.selectionSeed, catalogue);
    SeededIsGood(rank, input.selectionSeed, input.recent);
    var choose := SeededChooser(rank, input.selectionSeed, catalogue);
    var pick := SeededPicker(rank, input.selectionSeed, input.recent);
    if ShortagesIn(input.eligible, quota, catalogue) == [] && input.questionCount <= |input.eligible| {
      PassedChecks(rank, input, catalogue);
      var b := SelectedFacts(pick, input, catalogue, choose, quota);
    } else {
      forall other | ValidSelection(input.questionCount, input.eligible, other) ensures false {
        QuotaSuffices(rank, input, catalogue, other);
        NoShortages(input.eligible, quota, catalogue);
      }
    }
  }

  /** What a success of the selector unfolds to. */
  lemma SelectPassed(rank: Ranker, input: SelectionInput, catalogue: seq<Domain>)
    requires Catalogue(catalogue) && Select(rank, input, catalogue).Ok?
    ensures catalogue != [] && DistinctIds(input.eligible) && SupportedCount(input.questionCount) && NonBlank(input.selectionSeed)
    ensures Sufficient(input, catalogue, Quota(rank, input, catalogue))
    ensures Greedy(SeededChooser(rank, input.selectionSeed, catalogue), catalogue)
    ensures GoodPicker(SeededPicker(rank, input.selectionSeed, input.recent), input.recent)
    ensures Select(rank, input, catalogue)
            == Selected(SeededPicker(rank, input.selectionSeed, input.recent), input, catalogue,
                 SeededChooser(rank, input.selectionSeed, catalogue), Quota(rank, input, catalogue))
  {
    FirstDuplicateNone(input.eligible, {});
    SomeDomain(catalogue);
    SeededIsGreedy(rank, input.selectionSeed, catalogue);
    SeededIsGood(rank, input.selectionSeed, input.recent);
    PassedChecks(rank, input, catalogue);
  }

  /** The recents that the quotas force, counted against those of another selection. */
  ghost predicate CostsAtMost(input: SelectionInput, catalogue: seq<Domain>, quota: Domain -> nat, other: seq<Question>) {
    Larger(SumD(StaleNeed(input.eligible, input.recent, quota), catalogue),
           input.questionCount - |Filter(Fresh(input.recent), input.eligible)|)
    <= StaleCount(input.recent, other)
  }

  /** The quotas force no more recents than any valid selection uses. */
  ghost predicate LeastQuota(input: SelectionInput, catalogue: seq<Domain>, quota: Domain -> nat) {
    forall other {:trigger CostsAtMost(input, catalogue, quota, other)} ::
      ValidSelection(input.questionCount, input.eligible, other) ==> CostsAtMost(input, catalogue, quota, other)
  }

  lemma QuotaCostsLeast(rank: Ranker, input: SelectionInput, catalogue: seq<Domain>, other: seq<Question>)
    requires Catalogue(catalogue) && catalogue != [] && SupportedCount(input.questionCount)
    ensures ValidSelection(input.questionCount, input.eligible, other)
            ==> CostsAtMost(input, catalogue, Quota(rank, input, catalogue), other)
  {
    if ValidSelection(input.questionCount, input.eligible, other) {
      QuotaNeedsLeast(rank, input, catalogue, other);
      FreshAreLimited(input.eligible, input.recent, other);
    }
  }

  lemma QuotaIsLeast(rank: Ranker, input: SelectionInput, catalogue: seq<Domain>) returns (quota: Domain -> nat)
    requires Catalogue(catalogue) && catalogue != [] && SupportedCount(input.questionCount)
    ensures quota == Quota(rank, input, catalogue) && LeastQuota(input, catalogue, quota)
  {
    quota := Quota(rank, input, catalogue);
    forall other: seq<Question>
      ensures ValidSelection(input.questionCount, input.eligible, other) ==> CostsAtMost(input, catalogue, quota, other)
    {
      QuotaCostsLeast(rank, input, catalogue, other);
    }
  }

  lemma SelectIsGood(rank: Ranker, input: SelectionInput, catalogue: seq<Domain>, b: Blueprint) returns (quota: Domain -> nat)
    requires Catalogue(catalogue) && Select(rank, input, catalogue) == Ok(b)
    ensures b.selectionSeed == input.selectionSeed && b.questions == Numbered(Questions(b))
    ensures GoodOrder(input, catalogue, quota, Questions(b)) && LeastQuota(input, catalogue, quota)
    ensures RightlyUnassessed(input.questionCount, Questions(b), b.unassessedDomain)
  {
    SelectPassed(rank, input, catalogue);
    QuotaShape(rank, input, catalogue);
    quota := QuotaIsLeast(rank, input, catalogue);
    var r := SelectedFacts(SeededPicker(rank, input.selectionSeed, input.recent), input, catalogue,
                           SeededChooser(rank, input.selectionSeed, catalogue), quota);
  }

  /** Every returned blueprint is a valid selection without neighbours from one domain, numbered from 1,
      with the right unassessed domain. */
  lemma SelectIsValid(rank: Ranker, input: SelectionInput, catalogue: seq<Domain>, b: Blueprint)
    requires Catalogue(catalogue) && Select(rank, input, catalogue) == Ok(b)
    ensures b.selectionSeed == input.selectionSeed && b.questions == Numbered(Questions(b))
    ensures ValidSelection(input.questionCount, input.eligible, Questions(b))
    ensures RightlyUnassessed(input.questionCount, Questions(b), b.unassessedDomain)
    ensures forall i :: 0 <= i < |b.questions| - 1 ==> Questions(b)[i].domain != Questions(b)[i + 1].domain
  {
    var quota := SelectIsGood(rank, input, catalogue, b);
    forall i | 0 <= i < |b.questions| - 1 ensures Questions(b)[i].domain != Questions(b)[i + 1].domain {
      NoNeighboursAt(Questions(b), i);
    }
  }

  /** No valid selection uses fewer recent questions than the returned blueprint. */
  lemma SelectIsOptimal(rank: Ranker, input: SelectionInput, catalogue: seq<Domain>, b: Blueprint, other: seq<Question>)
    requires Catalogue(catalogue) && Select(rank, input, catalogue) == Ok(b)
    requires ValidSelection(input.questionCount, input.eligible, other)
    ensures StaleCount(input.recent, Questions(b)) <= StaleCount(input.recent, other)
  {
    var quota := SelectIsGood(rank, input, catalogue, b);
    assert CostsAtMost(input, catalogue, quota, other);
  }
}
