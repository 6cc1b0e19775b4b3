/** Which questions a blueprint has and in which order, in terms of ranks, ids and counts only. */
module SelectionRanks {
  import opened Basics
  import opened Sequences
  import opened TextOrder
  import opened InterviewModel
  import opened Coverage
  import opened Interleave
  import opened Selection
  import opened SelectionTheorems

  // ---------- the orders of the source ----------

  /** `a` has the smaller character at the first difference, or is a proper beginning of `b`. */
  predicate TextBefore(a: string, b: string) {
    exists k :: 0 <= k <= |a| && k < |b| && a[..k] == b[..k] && (k == |a| || a[k] < b[k])
  }

  function RankFor(rank: Ranker, seed: string, purpose: string, q: Question): nat {
    rank([Text(seed), Text(purpose), Text(DomainName(q.domain)), Text(q.questionId.text), Number(q.questionVersion)])
  }

  /** The smaller rank, or the same rank and the smaller id, or the same id too and the smaller version. */
  predicate RanksBefore(rank: Ranker, seed: string, purpose: string, q: Question, r: Question) {
    var x, y := RankFor(rank, seed, purpose, q), RankFor(rank, seed, purpose, r);
    || x < y
    || (x == y && TextLess(q.questionId.text, r.questionId.text))
    || (x == y && q.questionId.text == r.questionId.text && q.questionVersion < r.questionVersion)
  }

  /** What was not asked recently goes first, and otherwise the rank decides. */
  predicate Preferred(rank: Ranker, seed: string, purpose: string, recent: set<Id>, q: Question, r: Question) {
    if (q.questionId in recent) == (r.questionId in recent) then RanksBefore(rank, seed, purpose, q, r) else r.questionId in recent
  }

  /** The picked questions are the preferred ones of the pool: the first is preferred to every other one of the pool,
      and so on with what remains. */
  ghost predicate BestOf(rank: Ranker, seed: string, purpose: string, recent: set<Id>, picked: seq<Question>, pool: set<Question>) {
    picked != [] ==>
      && picked[0] in pool
      && (forall r :: r in pool && r != picked[0] ==> Preferred(rank, seed, purpose, recent, picked[0], r))
      && BestOf(rank, seed, purpose, recent, picked[1..], pool - {picked[0]})
  }

  lemma {:induction false} BestIsPreferred(rank: Ranker, seed: string, purpose: string, recent: set<Id>, picked: seq<Question>, pool: set<Question>,
                                           q: Question, r: Question)
    requires BestOf(rank, seed, purpose, recent, picked, pool) && q in picked && r in pool && r !in picked
    ensures q in pool && Preferred(rank, seed, purpose, recent, q, r)
  {
    if q != picked[0] {
      BestIsPreferred(rank, seed, purpose, recent, picked[1..], pool - {picked[0]}, q, r);
    }
  }

  lemma {:induction false} BestAreMembers(rank: Ranker, seed: string, purpose: string, recent: set<Id>, picked: seq<Question>, pool: set<Question>)
    requires BestOf(rank, seed, purpose, recent, picked, pool)
    ensures forall q :: q in picked ==> q in pool
  {
    if picked != [] {
      BestAreMembers(rank, seed, purpose, recent, picked[1..], pool - {picked[0]});
      assert picked == [picked[0]] + picked[1..];
    }
  }

  lemma {:induction false} BestWhenOrdered(rank: Ranker, seed: string, purpose: string, recent: set<Id>, picked: seq<Question>, pool: set<Question>)
    requires NoDup(picked) && forall q :: q in picked ==> q in pool
    requires forall i, j :: 0 <= i < j < |picked| ==> Preferred(rank, seed, purpose, recent, picked[i], picked[j])
    requires forall q, r :: q in picked && r in pool && r !in picked ==> Preferred(rank, seed, purpose, recent, q, r)
    ensures BestOf(rank, seed, purpose, recent, picked, pool)
  {
    if picked != [] {
      var rest := picked[1..];
      NoDupStep(picked);
      assert picked == [picked[0]] + rest;
      forall r | r in pool && r != picked[0] ensures Preferred(rank, seed, purpose, recent, picked[0], r) {
        if r in picked {
          var j :| 0 <= j < |picked| && picked[j] == r;
        }
      }
      forall i, j | 0 <= i < j < |rest| ensures Preferred(rank, seed, purpose, recent, rest[i], rest[j]) {
        assert rest[i] == picked[i + 1] && rest[j] == picked[j + 1];
      }
      BestWhenOrdered(rank, seed, purpose, recent, rest, pool - {picked[0]});
    }
  }

  /** The text order used throughout. */
  lemma {:induction false} TextLessIsBefore(a: string, b: string)
    ensures TextLess(a, b) <==> TextBefore(a, b)
  {
    if a != [] && b != [] && a[0] == b[0] {
      TextLessIsBefore(a[1..], b[1..]);
      if TextBefore(a[1..], b[1..]) {
        var k :| 0 <= k <= |a| - 1 && k < |b| - 1 && a[1..][..k] == b[1..][..k] && (k == |a| - 1 || a[1..][k] < b[1..][k]);
        assert a[..k + 1] == [a[0]] + a[1..][..k] && b[..k + 1] == [b[0]] + b[1..][..k];
      }
      if TextBefore(a, b) {
        var k :| 0 <= k <= |a| && k < |b| && a[..k] == b[..k] && (k == |a| || a[k] < b[k]);
        assert k > 0;
        assert a[1..][..k - 1] == a[..k][1..] && b[1..][..k - 1] == b[..k][1..];
      }
    } else if b != [] && (a == [] || a[0] < b[0]) {
      assert a[..0] == b[..0];
    } else {
      FirstCharacters(a, b);
    }
  }

  lemma FirstCharacters(a: string, b: string)
    ensures TextBefore(a, b) ==> b != [] && (a == [] || a[0] <= b[0])
  {
    if TextBefore(a, b) {
      var k :| 0 <= k <= |a| && k < |b| && a[..k] == b[..k] && (k == |a| || a[k] < b[k]);
      if k > 0 {
        assert a[0] == a[..k][0] == b[..k][0] == b[0];
      }
    }
  }

  // ---------- picking ----------

  lemma KeysRank(rank: Ranker, seed: string, purpose: Purpose, q: Question, r: Question)
    ensures KeyOrder(CandidateKey(rank, seed, purpose))(q, r) <==> RanksBefore(rank, seed, PurposeText(purpose), q, r)
  {
    var key := CandidateKey(rank, seed, purpose);
    assert key(q) == Key(RankFor(rank, seed, PurposeText(purpose), q), 0, q.questionId.text, q.questionVersion);
    assert key(r) == Key(RankFor(rank, seed, PurposeText(purpose), r), 0, r.questionId.text, r.questionVersion);
  }

  /** The ranked part of a pool, and the part of it that is taken. */
  lemma RankedInOrder(rank: Ranker, seed: string, purpose: Purpose, pool: seq<Question>, p: Question -> bool)
    requires DistinctIds(pool)
    ensures Ascends(Ranking(rank, seed, PurposeText(purpose)), Ranked(rank, seed, purpose, Filter(p, pool)))
  {
    DistinctNoDup(pool);
    FilterNoDup(p, pool);
    FilterMembers(p, pool);
    DistinctPart(pool, Filter(p, pool));
    CandidatesTotal(rank, seed, purpose, Filter(p, pool));
    SortedCopy(KeyOrder(CandidateKey(rank, seed, purpose)), Filter(p, pool));
    var r := Ranked(rank, seed, purpose, Filter(p, pool));
    forall i, j | 0 <= i < j < |r| ensures RanksBefore(rank, seed, PurposeText(purpose), r[i], r[j]) {
      KeysRank(rank, seed, purpose, r[i], r[j]);
    }
  }

  /** Fresh questions go first, and otherwise the given order decides. */
  predicate PreferredBy(before: (Question, Question) -> bool, recent: set<Id>, q: Question, r: Question) {
    if (q.questionId in recent) == (r.questionId in recent) then before(q, r) else r.questionId in recent
  }

  ghost predicate Ascends(before: (Question, Question) -> bool, s: seq<Question>) {
    forall i, j :: 0 <= i < j < |s| ==> before(s[i], s[j])
  }

  /** Taking from the front of an ordered list: what is left out comes after what is taken. */
  lemma TakenFirst(before: (Question, Question) -> bool, s: seq<Question>, n: int, q: Question, r: Question)
    requires Ascends(before, s) && q in Take(s, n) && r in s && r !in Take(s, n)
    ensures before(q, r)
  {
    var taken := Take(s, n);
    assert forall x :: 0 <= x < |taken| ==> taken[x] == s[x];
    var i :| 0 <= i < |taken| && taken[i] == q;
    var j :| 0 <= j < |s| && s[j] == r;
    assert j >= |taken|;
  }

  lemma TakenPart(s: seq<Question>, n: int)
    ensures forall q :: q in Take(s, n) ==> q in s
    ensures |Take(s, n)| < n ==> Take(s, n) == s
  {
  }

  lemma TopUpLeavesLater(before: (Question, Question) -> bool, recent: set<Id>, first: seq<Question>, second: seq<Question>, k: int, q: Question, r: Question)
    requires Ascends(before, first) && Ascends(before, second)
    requires forall x :: x in first ==> x.questionId !in recent
    requires forall x :: x in second ==> x.questionId in recent
    requires q in TopUp(first, second, k) && r !in TopUp(first, second, k) && (r in first || r in second)
    ensures PreferredBy(before, recent, q, r)
  {
    var a := Take(first, k);
    var b := if |a| < k then Take(second, k - |a|) else [];
    assert TopUp(first, second, k) == a + b;
    TakenPart(first, k);
    TakenPart(second, k - |a|);
    assert q in a || q in b;
    if r in first {
      assert r !in a;
      assert b == [] by {
        assert a != first;
      }
      TakenFirst(before, first, k, q, r);
    } else if q in b {
      TakenFirst(before, second, k - |a|, q, r);
    }
  }

  lemma TopUpAscends(before: (Question, Question) -> bool, recent: set<Id>, first: seq<Question>, second: seq<Question>, k: int, i: nat, j: nat)
    requires Ascends(before, first) && Ascends(before, second) && i < j < |TopUp(first, second, k)|
    requires forall x :: x in first ==> x.questionId !in recent
    requires forall x :: x in second ==> x.questionId in recent
    ensures PreferredBy(before, recent, TopUp(first, second, k)[i], TopUp(first, second, k)[j])
  {
    var a := Take(first, k);
    var b := if |a| < k then Take(second, k - |a|) else [];
    var picked := TopUp(first, second, k);
    assert picked == a + b;
    assert i < |a| ==> picked[i] == first[i] && first[i] in first;
    assert j < |a| ==> picked[j] == first[j];
    assert i >= |a| ==> picked[i] == second[i - |a|] && second[i - |a|] in second;
    assert j >= |a| ==> picked[j] == second[j - |a|] && second[j - |a|] in second;
  }

  function Ranking(rank: Ranker, seed: string, purpose: string): (Question, Question) -> bool {
    (q: Question, r: Question) => RanksBefore(rank, seed, purpose, q, r)
  }

  /** Two ordered lists, the first of fresh and the second of recent questions, topped up to `k`. */
  lemma TopUpIsBest(rank: Ranker, seed: string, purpose: string, recent: set<Id>, pool: seq<Question>,
                    first: seq<Question>, second: seq<Question>, k: int)
    requires NoDup(TopUp(first, second, k))
    requires forall q :: q in first <==> q in pool && q.questionId !in recent
    requires forall q :: q in second <==> q in pool && q.questionId in recent
    requires Ascends(Ranking(rank, seed, purpose), first) && Ascends(Ranking(rank, seed, purpose), second)
    ensures BestOf(rank, seed, purpose, recent, TopUp(first, second, k), ToSet(pool))
  {
    var before, picked := Ranking(rank, seed, purpose), TopUp(first, second, k);
    TakenPart(first, k);
    TakenPart(second, k - |Take(first, k)|);
    forall i, j | 0 <= i < j < |picked| ensures Preferred(rank, seed, purpose, recent, picked[i], picked[j]) {
      TopUpAscends(before, recent, first, second, k, i, j);
      PreferredMeans(rank, seed, purpose, recent, picked[i], picked[j]);
    }
    forall q, r | q in picked && r in pool && r !in picked ensures Preferred(rank, seed, purpose, recent, q, r) {
      TopUpLeavesLater(before, recent, first, second, k, q, r);
      PreferredMeans(rank, seed, purpose, recent, q, r);
    }
    BestWhenOrdered(rank, seed, purpose, recent, picked, ToSet(pool));
  }

  lemma PreferredMeans(rank: Ranker, seed: string, purpose: string, recent: set<Id>, q: Question, r: Question)
    ensures Preferred(rank, seed, purpose, recent, q, r) <==> PreferredBy(Ranking(rank, seed, purpose), recent, q, r)
  {
  }

  /** A pick is made of the preferred questions of its pool. */
  lemma PickIsBest(rank: Ranker, seed: string, purpose: Purpose, recent: set<Id>, pool: seq<Question>, k: int)
    requires DistinctIds(pool)
    ensures BestOf(rank, seed, PurposeText(purpose), recent, Pick(rank, seed, purpose, recent, pool, k), ToSet(pool))
  {
    PickIsGood(rank, seed, purpose, recent, pool, k);
    RankedFacts(rank, seed, purpose, pool, Fresh(recent));
    RankedFacts(rank, seed, purpose, pool, Stale(recent));
    RankedInOrder(rank, seed, purpose, pool, Fresh(recent));
    RankedInOrder(rank, seed, purpose, pool, Stale(recent));
    TopUpIsBest(rank, seed, PurposeText(purpose), recent, pool, Ranked(rank, seed, purpose, Filter(Fresh(recent), pool)),
                Ranked(rank, seed, purpose, Filter(Stale(recent), pool)), k);
  }

  // ---------- the turns ----------

  function OrderRankFor(rank: Ranker, seed: string, position: nat, d: Domain): nat {
    rank([Text(seed), Text("blueprint-order"), Number(position), Text(DomainName(d))])
  }

  /** More questions left, or as many and the smaller rank, or that too and the smaller name. */
  predicate TurnBefore(rank: Ranker, seed: string, position: nat, rest: seq<Question>, d: Domain, e: Domain) {
    var x, y := OrderRankFor(rank, seed, position, d), OrderRankFor(rank, seed, position, e);
    || CountIn(d, rest) > CountIn(e, rest)
    || (CountIn(d, rest) == CountIn(e, rest) && x < y)
    || (CountIn(d, rest) == CountIn(e, rest) && x == y && TextLess(DomainName(d), DomainName(e)))
  }

  /** The turn goes to the foremost domain among those with questions left, other than the previous one; the previous
      one comes again only when no other has any left. */
  ghost predicate TurnFor(rank: Ranker, seed: string, rest: seq<Question>, d: Domain, previous: Option<Domain>, position: nat) {
    forall e :: e != d && CountIn(e, rest) > 0 && previous != Some(e) ==> previous != Some(d) && TurnBefore(rank, seed, position, rest, d, e)
  }

  /** Every turn from this position on. */
  ghost predicate Turns(rank: Ranker, seed: string, rest: seq<Question>, previous: Option<Domain>, position: nat) {
    rest != [] ==>
      TurnFor(rank, seed, rest, rest[0].domain, previous, position) && Turns(rank, seed, rest[1..], Some(rest[0].domain), position + 1)
  }

  lemma OrderRankIs(rank: Ranker, seed: string, position: nat, d: Domain)
    ensures rank([Text(seed), Text(PurposeText(OrderRank)), Number(position), Text(DomainName(d))]) == OrderRankFor(rank, seed, position, d)
  {
    assert [Text(seed), Text(PurposeText(OrderRank)), Number(position), Text(DomainName(d))]
        == [Text(seed), Text("blueprint-order"), Number(position), Text(DomainName(d))];
  }

  lemma KeysTurn(rank: Ranker, seed: string, queues: Queues, position: nat, rest: seq<Question>, d: Domain, e: Domain)
    requires |QueueOf(queues, d)| == CountIn(d, rest) && |QueueOf(queues, e)| == CountIn(e, rest)
    ensures TurnOrder(rank, seed, queues, position)(d, e) <==> TurnBefore(rank, seed, position, rest, d, e)
  {
    var key := TurnKey(rank, seed, queues, position);
    OrderRankIs(rank, seed, position, d);
    OrderRankIs(rank, seed, position, e);
    assert key(d) == Key(0 - CountIn(d, rest), OrderRankFor(rank, seed, position, d), DomainName(d), 0);
    assert key(e) == Key(0 - CountIn(e, rest), OrderRankFor(rank, seed, position, e), DomainName(e), 0);
    assert TurnOrder(rank, seed, queues, position)(d, e) == KeyLess(key(d), key(e));
  }

  /** The rule names the foremost domain. */
  lemma RuleIsForemost(rank: Ranker, seed: string, catalogue: seq<Domain>, queues: Queues, previous: Option<Domain>, position: nat, e: Domain)
    requires Catalogue(catalogue) && Held(queues, catalogue) > 0
    requires QueueOf(queues, e) != [] && previous != Some(e)
    ensures var d := Rule(rank, seed, catalogue, queues, previous, position);
            e != d ==> previous != Some(d) && TurnOrder(rank, seed, queues, position)(d, e)
  {
    var less := TurnOrder(rank, seed, queues, position);
    var available := Filter(HasMore(queues), catalogue);
    FilterNoDup(HasMore(queues), catalogue);
    FilterMembers(HasMore(queues), catalogue);
    TurnOrderTotal(rank, seed, queues, position, available);
    SortedCopy(less, available);
    assert HasMore(queues)(e);
    SortedFront(less, SortBy(less, available), e);
  }

  lemma {:induction false} TurnsAreForemost(rank: Ranker, seed: string, catalogue: seq<Domain>, queues: Queues, previous: Option<Domain>, done: nat,
                                            position: nat)
    requires Catalogue(catalogue) && Greedy(SeededChooser(rank, seed, catalogue), catalogue) && WellFiled(queues) && position == done + 1
    ensures Turns(rank, seed, Interleaved(SeededChooser(rank, seed, catalogue), catalogue, queues, previous, done), previous, position)
    decreases Held(queues, catalogue)
  {
    var choose := SeededChooser(rank, seed, catalogue);
    var ordered := Interleaved(choose, catalogue, queues, previous, done);
    if Held(queues, catalogue) > 0 {
      var d := choose(queues, previous, done + 1);
      assert GoodTurn(queues, catalogue, previous, d);
      HeldPop(queues, d, catalogue);
      PopFiled(queues, d);
      TurnsAreForemost(rank, seed, catalogue, Pop(queues, d), Some(d), done + 1, position + 1);
      FirstTurn(rank, seed, catalogue, queues, previous, done);
      assert ordered[1..] == Interleaved(choose, catalogue, Pop(queues, d), Some(d), done + 1);
    }
  }

  lemma FirstTurn(rank: Ranker, seed: string, catalogue: seq<Domain>, queues: Queues, previous: Option<Domain>, done: nat)
    requires Catalogue(catalogue) && Greedy(SeededChooser(rank, seed, catalogue), catalogue) && WellFiled(queues)
    requires Held(queues, catalogue) > 0
    ensures var d := Rule(rank, seed, catalogue, queues, previous, done + 1);
            TurnFor(rank, seed, Interleaved(SeededChooser(rank, seed, catalogue), catalogue, queues, previous, done), d, previous, done + 1)
  {
    var choose := SeededChooser(rank, seed, catalogue);
    var ordered := Interleaved(choose, catalogue, queues, previous, done);
    var d := choose(queues, previous, done + 1);
    forall e ensures CountIn(e, ordered) == |QueueOf(queues, e)| {
      InterleavedKeepsQueues(choose, catalogue, queues, previous, done, e);
    }
    forall e | e != d && CountIn(e, ordered) > 0 && previous != Some(e)
      ensures previous != Some(d) && TurnBefore(rank, seed, done + 1, ordered, d, e)
    {
      RuleIsForemost(rank, seed, catalogue, queues, previous, done + 1, e);
      KeysTurn(rank, seed, queues, done + 1, ordered, d, e);
    }
  }

  // ---------- the omitted domain ----------

  function OmitRankFor(rank: Ranker, seed: string, d: Domain): nat {
    rank([Text(seed), Text("omitted-domain"), Text(DomainName(d))])
  }

  predicate HasNone(eligible: seq<Question>, d: Domain) {
    forall q :: q in eligible ==> q.domain != d
  }

  predicate HasOnlyRecent(eligible: seq<Question>, recent: set<Id>, d: Domain) {
    !HasNone(eligible, d) && forall q :: q in eligible && q.domain == d ==> q.questionId in recent
  }

  /** The other domains without a candidate. */
  function Empty(eligible: seq<Question>, omitted: Domain): set<Domain> {
    set d | d in DOMAINS && d != omitted && HasNone(eligible, d)
  }

  /** The other domains that have candidates, all of them recent. */
  function Exhausted(eligible: seq<Question>, recent: set<Id>, omitted: Domain): set<Domain> {
    set d | d in DOMAINS && d != omitted && HasOnlyRecent(eligible, recent, d)
  }

  /** Omitting `o` leaves fewer other domains empty than omitting `e`, or as many and fewer exhausted, or both as
      many and `o` has the smaller rank, or that too and the smaller name. */
  predicate OmittedBefore(rank: Ranker, input: SelectionInput, o: Domain, e: Domain) {
    var a, b := |Empty(input.eligible, o)|, |Empty(input.eligible, e)|;
    var u, v := |Exhausted(input.eligible, input.recent, o)|, |Exhausted(input.eligible, input.recent, e)|;
    var x, y := OmitRankFor(rank, input.selectionSeed, o), OmitRankFor(rank, input.selectionSeed, e);
    a < b || (a == b && u < v) || (a == b && u == v && x < y) || (a == b && u == v && x == y && TextLess(DomainName(o), DomainName(e)))
  }

  lemma EmptyCount(eligible: seq<Question>, catalogue: seq<Domain>, o: Domain)
    requires Catalogue(catalogue)
    ensures |Filter(Unavailable(eligible, o), catalogue)| == |Empty(eligible, o)|
  {
    FilterCard(Unavailable(eligible, o), catalogue);
    forall d ensures Unavailable(eligible, o)(d) <==> d in Empty(eligible, o) {
      UnavailableMeans(eligible, o, d);
    }
    SameSets(Unavailable(eligible, o), catalogue, Empty(eligible, o));
  }

  lemma ExhaustedCount(eligible: seq<Question>, recent: set<Id>, catalogue: seq<Domain>, o: Domain)
    requires Catalogue(catalogue)
    ensures |Filter(Unavoidable(eligible, recent, o), catalogue)| == |Exhausted(eligible, recent, o)|
  {
    FilterCard(Unavoidable(eligible, recent, o), catalogue);
    forall d ensures Unavoidable(eligible, recent, o)(d) <==> d in Exhausted(eligible, recent, o) {
      UnavoidableMeans(eligible, recent, o, d);
    }
    SameSets(Unavoidable(eligible, recent, o), catalogue, Exhausted(eligible, recent, o));
  }

  lemma SameSets(p: Domain -> bool, catalogue: seq<Domain>, domains: set<Domain>)
    requires Catalogue(catalogue) && forall d :: p(d) <==> d in domains
    ensures (set d | d in catalogue && p(d)) == domains
  {
  }

  lemma UnavailableMeans(eligible: seq<Question>, o: Domain, d: Domain)
    ensures Unavailable(eligible, o)(d) <==> d in Empty(eligible, o)
  {
    PoolMembers(eligible, d);
    TheCatalogue();
  }

  lemma UnavoidableMeans(eligible: seq<Question>, recent: set<Id>, o: Domain, d: Domain)
    ensures Unavoidable(eligible, recent, o)(d) <==> d in Exhausted(eligible, recent, o)
  {
    PoolMembers(eligible, d);
    TheCatalogue();
  }

  lemma FilterCard(p: Domain -> bool, domains: seq<Domain>)
    requires NoDup(domains)
    ensures |Filter(p, domains)| == |set d | d in domains && p(d)|
  {
    FilterNoDup(p, domains);
    FilterMembers(p, domains);
    NoDupCard(Filter(p, domains));
    assert ToSet(Filter(p, domains)) == set d | d in domains && p(d);
  }

  lemma PoolMembers(eligible: seq<Question>, d: Domain)
    ensures forall q :: q in Pool(eligible, d) <==> q in eligible && q.domain == d
    ensures Pool(eligible, d) == [] <==> HasNone(eligible, d)
  {
    FilterMembers(OfDomain(d), eligible);
    if Pool(eligible, d) != [] {
      assert Pool(eligible, d)[0] in Pool(eligible, d);
    }
  }

  lemma {:induction false} EarlierIndex<T>(s: seq<T>, x: T, y: T)
    requires x in s && y in s && IndexOf(s, x) < IndexOf(s, y)
    ensures exists i, j :: 0 <= i < j < |s| && s[i] == x && s[j] == y
  {
    if s[0] == x {
      var j :| 0 <= j < |s| && s[j] == y;
      assert j > 0;
      assert s[0] == x && s[j] == y;
    } else {
      assert s == [s[0]] + s[1..];
      EarlierIndex(s[1..], x, y);
      var i, j :| 0 <= i < j < |s[1..]| && s[1..][i] == x && s[1..][j] == y;
      assert s[i + 1] == x && s[j + 1] == y;
    }
  }

  lemma SeedRankOrder(rank: Ranker, seed: string, catalogue: seq<Domain>, o: Domain, e: Domain)
    requires Catalogue(catalogue) && SeedRank(rank, seed, catalogue, o) < SeedRank(rank, seed, catalogue, e)
    ensures var x, y := OmitRankFor(rank, seed, o), OmitRankFor(rank, seed, e);
            x < y || (x == y && TextLess(DomainName(o), DomainName(e)))
  {
    var less := KeyOrder(SeedKey(rank, seed));
    var sorted := SortBy(less, catalogue);
    SeedKeysTotal(rank, seed, catalogue);
    SortedCopy(less, catalogue);
    assert o in catalogue && e in catalogue;
    EarlierIndex(sorted, o, e);
    assert less(o, e);
    SeedKeysRank(rank, seed, o, e);
  }

  lemma SeedKeysRank(rank: Ranker, seed: string, o: Domain, e: Domain)
    ensures var x, y := OmitRankFor(rank, seed, o), OmitRankFor(rank, seed, e);
            KeyOrder(SeedKey(rank, seed))(o, e) ==> x < y || (x == y && TextLess(DomainName(o), DomainName(e)))
  {
    var key := SeedKey(rank, seed);
    assert [Text(seed), Text(PurposeText(OmittedRank)), Text(DomainName(o))] == [Text(seed), Text("omitted-domain"), Text(DomainName(o))];
    assert [Text(seed), Text(PurposeText(OmittedRank)), Text(DomainName(e))] == [Text(seed), Text("omitted-domain"), Text(DomainName(e))];
    assert key(o) == Key(OmitRankFor(rank, seed, o), 0, DomainName(o), 0) && key(e) == Key(OmitRankFor(rank, seed, e), 0, DomainName(e), 0);
  }

  lemma OmittedIsForemost(rank: Ranker, input: SelectionInput, catalogue: seq<Domain>, e: Domain)
    requires Catalogue(catalogue) && catalogue != [] && e != OmittedDomain(rank, input, catalogue)
    ensures OmittedBefore(rank, input, OmittedDomain(rank, input, catalogue), e)
  {
    var o := OmittedDomain(rank, input, catalogue);
    var less := KeyOrder(OmitKey(rank, input, catalogue));
    OmitKeysDiffer(rank, input, catalogue);
    SortedCopy(less, catalogue);
    assert e in catalogue;
    SortedFront(less, SortBy(less, catalogue), e);
    EmptyCount(input.eligible, catalogue, o);
    EmptyCount(input.eligible, catalogue, e);
    ExhaustedCount(input.eligible, input.recent, catalogue, o);
    ExhaustedCount(input.eligible, input.recent, catalogue, e);
    var a, b := OmitKey(rank, input, catalogue)(o), OmitKey(rank, input, catalogue)(e);
    assert KeyLess(a, b) && !TextLess(a.text, b.text);
    if a.major == b.major && a.minor == b.minor {
      SeedRankOrder(rank, input.selectionSeed, catalogue, o, e);
    }
  }

  // ---------- the whole blueprint ----------

  /** How many questions are reserved for a domain, and how many are flexible. */
  function ReservedFor(count: int, unassessed: Option<Domain>, d: Domain): nat {
    if count == 5 then if unassessed == Some(d) then 0 else 1
    else if count == 15 then 2
    else if d == GoLanguage || d == ConcurrencyRuntimePerformance then 2 else 1
  }

  function FlexibleFor(count: int): nat {
    if count == 5 then 0 else if count == 10 then 2 else 3
  }

  function EligibleIn(eligible: seq<Question>, d: Domain): set<Question> {
    set q | q in eligible && q.domain == d
  }

  function Unreserved(eligible: seq<Question>, parts: Domain -> seq<Question>): set<Question> {
    set q | q in eligible && q !in parts(q.domain)
  }

  /** In each domain the preferred candidates are reserved, and the preferred ones of the rest are added. */
  ghost predicate Chosen(rank: Ranker, input: SelectionInput, unassessed: Option<Domain>, parts: Domain -> seq<Question>, extra: seq<Question>) {
    && (forall d :: |parts(d)| == ReservedFor(input.questionCount, unassessed, d))
    && |extra| == FlexibleFor(input.questionCount)
    && (forall d :: BestOf(rank, input.selectionSeed, "candidate", input.recent, parts(d), EligibleIn(input.eligible, d)))
    && BestOf(rank, input.selectionSeed, "flexible-candidate", input.recent, extra, Unreserved(input.eligible, parts))
  }

  /** Each domain's questions come in the order they were chosen, and each turn goes to the foremost domain. */
  ghost predicate InTurns(rank: Ranker, seed: string, ordered: seq<Question>, parts: Domain -> seq<Question>, extra: seq<Question>) {
    && (forall d :: Filter(OfDomain(d), ordered) == parts(d) + Filter(OfDomain(d), extra))
    && Turns(rank, seed, ordered, None, 1)
  }

  /** Why the blueprint is what it is. */
  ghost predicate Explained(rank: Ranker, input: SelectionInput, b: Blueprint, parts: Domain -> seq<Question>, extra: seq<Question>) {
    && Chosen(rank, input, b.unassessedDomain, parts, extra)
    && InTurns(rank, input.selectionSeed, Questions(b), parts, extra)
  }

  /** The quotas for a question count, and the domain left out at five. */
  predicate Quotas(count: int, omitted: Domain, quota: Domain -> nat, d: Domain) {
    quota(d) == if count == 5 then if d == omitted then 0 else 1 else Minimum(count, d)
  }

  lemma QuotasAre(rank: Ranker, input: SelectionInput, catalogue: seq<Domain>) returns (quota: Domain -> nat, omitted: Domain)
    requires catalogue != []
    ensures quota == Quota(rank, input, catalogue) && forall d :: Quotas(input.questionCount, omitted, quota, d)
  {
    quota, omitted := Quota(rank, input, catalogue), OmittedDomain(rank, input, catalogue);
  }

  /** What the selector composes and in which order it puts it. */
  lemma SelectComposes(rank: Ranker, input: SelectionInput, catalogue: seq<Domain>, b: Blueprint)
    returns (quota: Domain -> nat, omitted: Domain, parts: Domain -> seq<Question>, extra: seq<Question>)
    requires Catalogue(catalogue) && Select(rank, input, catalogue) == Ok(b)
    ensures SupportedCount(input.questionCount)
    ensures forall d :: Quotas(input.questionCount, omitted, quota, d)
    ensures parts == Reserved(SeededPicker(rank, input.selectionSeed, input.recent), input.eligible, quota)
    ensures extra == Extra(SeededPicker(rank, input.selectionSeed, input.recent), input, Joined(parts, catalogue))
    ensures Composed(input, catalogue, quota, parts, extra) && Sufficient(input, catalogue, quota)
    ensures Greedy(SeededChooser(rank, input.selectionSeed, catalogue), catalogue)
    ensures Questions(b) == Interleaved(SeededChooser(rank, input.selectionSeed, catalogue), catalogue, QueuesOf(parts, extra, catalogue), None, 0)
  {
    SelectPassed(rank, input, catalogue);
    QuotaShape(rank, input, catalogue);
    quota, omitted := QuotasAre(rank, input, catalogue);
    var pick, choose := SeededPicker(rank, input.selectionSeed, input.recent), SeededChooser(rank, input.selectionSeed, catalogue);
    parts, extra := SelectorComposes(pick, input, catalogue, quota);
    OrderedFacts(input, catalogue, choose, quota, parts, extra);
    NoShortages(input.eligible, quota, catalogue);
    SelectedUnfolds(pick, input, catalogue, choose, quota, parts, extra);
    var r := FinishSucceeds(input.selectionSeed, input.questionCount,
                            Interleaved(choose, catalogue, QueuesOf(parts, extra, catalogue), None, 0), catalogue);
  }

  /** A candidate's id is reserved exactly when it is itself reserved. */
  lemma LeftIsUnreserved(eligible: seq<Question>, parts: Domain -> seq<Question>, catalogue: seq<Domain>, q: Question)
    requires Catalogue(catalogue) && DistinctIds(eligible) && q in eligible
    requires forall d, r :: r in parts(d) ==> r in eligible && r.domain == d
    ensures NotAmong(Joined(parts, catalogue))(q) <==> q !in parts(q.domain)
  {
    JoinedMembers(parts, catalogue);
    HasIdMember(Joined(parts, catalogue), q.questionId);
    if r :| r in Joined(parts, catalogue) && r.questionId == q.questionId {
      DistinctPair(eligible, q, r);
    }
    assert q.domain in catalogue;
  }

  lemma PartsAreOwn(input: SelectionInput, catalogue: seq<Domain>, quota: Domain -> nat, parts: Domain -> seq<Question>, extra: seq<Question>)
    requires Composed(input, catalogue, quota, parts, extra)
    ensures forall d, r :: r in parts(d) ==> r in input.eligible && r.domain == d
  {
    forall d, r | r in parts(d) ensures r in input.eligible && r.domain == d {
      assert GoodPart(input.eligible, input.recent, quota, parts, d);
      FilterMembers(OfDomain(d), input.eligible);
    }
  }

  lemma LeftIsLeft(input: SelectionInput, catalogue: seq<Domain>, quota: Domain -> nat, parts: Domain -> seq<Question>, extra: seq<Question>)
    requires Composed(input, catalogue, quota, parts, extra)
    ensures ToSet(Left(input.eligible, Joined(parts, catalogue))) == Unreserved(input.eligible, parts)
  {
    var reserved := Joined(parts, catalogue);
    PartsAreOwn(input, catalogue, quota, parts, extra);
    FilterMembers(NotAmong(reserved), input.eligible);
    forall q | q in input.eligible ensures NotAmong(reserved)(q) <==> q !in parts(q.domain) {
      LeftIsUnreserved(input.eligible, parts, catalogue, q);
    }
  }

  lemma OrderExplained(rank: Ranker, seed: string, catalogue: seq<Domain>, parts: Domain -> seq<Question>, extra: seq<Question>)
    requires Catalogue(catalogue) && Greedy(SeededChooser(rank, seed, catalogue), catalogue) && Filed(parts)
    ensures var ordered := Interleaved(SeededChooser(rank, seed, catalogue), catalogue, QueuesOf(parts, extra, catalogue), None, 0);
            InTurns(rank, seed, ordered, parts, extra)
  {
    var choose, queues := SeededChooser(rank, seed, catalogue), QueuesOf(parts, extra, catalogue);
    var ordered := Interleaved(choose, catalogue, queues, None, 0);
    QueueParts(parts, extra, catalogue);
    forall d ensures Filter(OfDomain(d), ordered) == parts(d) + Filter(OfDomain(d), extra) {
      InterleavedKeepsQueues(choose, catalogue, queues, None, 0, d);
    }
    TurnsAreForemost(rank, seed, catalogue, queues, None, 0, 1);
  }

  /** The unassessed domain of five questions is the omitted one, and the quotas are as the source has them. */
  lemma QuotasExplained(count: int, unassessed: Option<Domain>, questions: seq<Question>, quota: Domain -> nat, omitted: Domain,
                        parts: Domain -> seq<Question>, extra: seq<Question>)
    requires SupportedCount(count) && forall d :: Quotas(count, omitted, quota, d)
    requires RightlyUnassessed(count, questions, unassessed)
    requires forall d :: |parts(d)| == quota(d)
    requires forall d :: Filter(OfDomain(d), questions) == parts(d) + Filter(OfDomain(d), extra)
    ensures unassessed.Some? <==> count == 5
    ensures unassessed.Some? ==> unassessed.value == omitted
    ensures forall d :: |parts(d)| == ReservedFor(count, unassessed, d)
  {
    if unassessed.Some? {
      var u := unassessed.value;
      assert CountIn(u, questions) == 0;
      assert |parts(u)| == 0 && Quotas(count, omitted, quota, u);
    }
    forall d ensures |parts(d)| == ReservedFor(count, unassessed, d) {
      assert Quotas(count, omitted, quota, d);
    }
  }

  lemma SizesExplained(input: SelectionInput, catalogue: seq<Domain>, quota: Domain -> nat, omitted: Domain, parts: Domain -> seq<Question>, extra: seq<Question>)
    requires SupportedCount(input.questionCount) && forall d :: Quotas(input.questionCount, omitted, quota, d)
    requires Composed(input, catalogue, quota, parts, extra) && Sufficient(input, catalogue, quota)
    ensures Filed(parts) && forall d :: |parts(d)| == quota(d)
    ensures |Joined(parts, catalogue)| <= input.questionCount && |extra| == FlexibleFor(input.questionCount)
  {
    ReservedFacts(input, catalogue, quota, parts, extra);
    ChoiceFacts(input, catalogue, quota, parts, extra);
    QuotaTotals(input.questionCount, catalogue, omitted);
    forall d ensures quota(d) == if input.questionCount == 5 then AllBut(omitted)(d) else Minimums(input.questionCount)(d) {
      assert Quotas(input.questionCount, omitted, quota, d);
    }
    SumDSame(Naturals(quota), if input.questionCount == 5 then Naturals(AllBut(omitted)) else Naturals(Minimums(input.questionCount)), catalogue);
  }

  predicate PickedFor(rank: Ranker, input: SelectionInput, quota: nat, parts: Domain -> seq<Question>, d: Domain) {
    parts(d) == Pick(rank, input.selectionSeed, CandidateRank, input.recent, Pool(input.eligible, d), quota)
  }

  lemma ReservedArePicked(rank: Ranker, input: SelectionInput, quota: Domain -> nat, parts: Domain -> seq<Question>)
    requires parts == Reserved(SeededPicker(rank, input.selectionSeed, input.recent), input.eligible, quota)
    ensures forall d :: PickedFor(rank, input, quota(d), parts, d)
  {
  }

  lemma ExtraIsPicked(rank: Ranker, input: SelectionInput, reserved: seq<Question>)
    ensures Extra(SeededPicker(rank, input.selectionSeed, input.recent), input, reserved)
            == Pick(rank, input.selectionSeed, FlexibleRank, input.recent, Left(input.eligible, reserved), input.questionCount - |reserved|)
  {
  }

  lemma LeftFits(input: SelectionInput, catalogue: seq<Domain>, quota: Domain -> nat, parts: Domain -> seq<Question>, extra: seq<Question>)
    requires Composed(input, catalogue, quota, parts, extra)
    ensures DistinctIds(input.eligible) && DistinctIds(Left(input.eligible, Joined(parts, catalogue)))
    ensures ToSet(Left(input.eligible, Joined(parts, catalogue))) == Unreserved(input.eligible, parts)
  {
    LeftDistinct(input.eligible, Joined(parts, catalogue));
    LeftIsLeft(input, catalogue, quota, parts, extra);
  }

  lemma PartIsBest(rank: Ranker, input: SelectionInput, quota: Domain -> nat, parts: Domain -> seq<Question>, d: Domain)
    requires DistinctIds(input.eligible) && parts == Reserved(SeededPicker(rank, input.selectionSeed, input.recent), input.eligible, quota)
    ensures BestOf(rank, input.selectionSeed, "candidate", input.recent, parts(d), EligibleIn(input.eligible, d))
  {
    ReservedArePicked(rank, input, quota, parts);
    assert PickedFor(rank, input, quota(d), parts, d);
    PoolDistinct(input.eligible, d);
    FilterMembers(OfDomain(d), input.eligible);
    assert ToSet(Pool(input.eligible, d)) == EligibleIn(input.eligible, d);
    PickIsBest(rank, input.selectionSeed, CandidateRank, input.recent, Pool(input.eligible, d), quota(d));
  }

  lemma FlexibleAreBest(rank: Ranker, input: SelectionInput, parts: Domain -> seq<Question>, extra: seq<Question>, reserved: seq<Question>)
    requires DistinctIds(Left(input.eligible, reserved)) && ToSet(Left(input.eligible, reserved)) == Unreserved(input.eligible, parts)
    requires extra == Extra(SeededPicker(rank, input.selectionSeed, input.recent), input, reserved)
    ensures BestOf(rank, input.selectionSeed, "flexible-candidate", input.recent, extra, Unreserved(input.eligible, parts))
  {
    ExtraIsPicked(rank, input, reserved);
    PickIsBest(rank, input.selectionSeed, FlexibleRank, input.recent, Left(input.eligible, reserved), input.questionCount - |reserved|);
  }

  /** The returned blueprint is explained by ranks, ids, versions and counts alone. */
  lemma SelectIsExplained(rank: Ranker, input: SelectionInput, catalogue: seq<Domain>, b: Blueprint)
    returns (parts: Domain -> seq<Question>, extra: seq<Question>)
    requires Catalogue(catalogue) && Select(rank, input, catalogue) == Ok(b)
    ensures Explained(rank, input, b, parts, extra)
  {
    var quota: Domain -> nat;
    var omitted: Domain;
    SelectIsValid(rank, input, catalogue, b);
    quota, omitted, parts, extra := SelectComposes(rank, input, catalogue, b);
    SizesExplained(input, catalogue, quota, omitted, parts, extra);
    OrderExplained(rank, input.selectionSeed, catalogue, parts, extra);
    LeftFits(input, catalogue, quota, parts, extra);
    forall d ensures BestOf(rank, input.selectionSeed, "candidate", input.recent, parts(d), EligibleIn(input.eligible, d)) {
      PartIsBest(rank, input, quota, parts, d);
    }
    FlexibleAreBest(rank, input, parts, extra, Joined(parts, catalogue));
    QuotasExplained(input.questionCount, b.unassessedDomain, Questions(b), quota, omitted, parts, extra);
  }

  /** Five questions leave the foremost domain out. */
  lemma OmissionIsForemost(rank: Ranker, input: SelectionInput, catalogue: seq<Domain>, b: Blueprint, e: Domain)
    requires Catalogue(catalogue) && Select(rank, input, catalogue) == Ok(b) && input.questionCount == 5
    ensures b.unassessedDomain.Some? && (e != b.unassessedDomain.value ==> OmittedBefore(rank, input, b.unassessedDomain.value, e))
  {
    UnassessedIsOmitted(rank, input, catalogue, b);
    if e != b.unassessedDomain.value {
      OmittedIsForemost(rank, input, catalogue, e);
    }
  }

  /** No domain has fewer questions than its quota. */
  lemma QuotaIsMet(rank: Ranker, input: SelectionInput, catalogue: seq<Domain>, b: Blueprint, quota: Domain -> nat, d: Domain)
    requires Catalogue(catalogue) && Select(rank, input, catalogue) == Ok(b) && catalogue != [] && quota == Quota(rank, input, catalogue)
    ensures CountIn(d, Questions(b)) >= quota(d)
  {
    SelectPassed(rank, input, catalogue);
    QuotaShape(rank, input, catalogue);
    var pick, choose := SeededPicker(rank, input.selectionSeed, input.recent), SeededChooser(rank, input.selectionSeed, catalogue);
    var parts, extra := SelectorComposes(pick, input, catalogue, quota);
    OrderedFacts(input, catalogue, choose, quota, parts, extra);
    NoShortages(input.eligible, quota, catalogue);
    SelectedUnfolds(pick, input, catalogue, choose, quota, parts, extra);
    var r := FinishSucceeds(input.selectionSeed, input.questionCount,
                            Interleaved(choose, catalogue, QueuesOf(parts, extra, catalogue), None, 0), catalogue);
    ReservedFacts(input, catalogue, quota, parts, extra);
    QueueParts(parts, extra, catalogue);
    InterleavedKeepsQueues(choose, catalogue, QueuesOf(parts, extra, catalogue), None, 0, d);
  }

  lemma UnassessedIsOmitted(rank: Ranker, input: SelectionInput, catalogue: seq<Domain>, b: Blueprint)
    requires Catalogue(catalogue) && Select(rank, input, catalogue) == Ok(b) && input.questionCount == 5
    ensures catalogue != [] && b.unassessedDomain == Some(OmittedDomain(rank, input, catalogue))
  {
    SomeDomain(catalogue);
    SelectIsValid(rank, input, catalogue, b);
    var u := b.unassessedDomain.value;
    QuotaIsMet(rank, input, catalogue, b, Quota(rank, input, catalogue), u);
  }

  // ---------- only one order is explained ----------

  lemma PreferredOneWay(rank: Ranker, seed: string, purpose: string, recent: set<Id>, q: Question, r: Question)
    requires Preferred(rank, seed, purpose, recent, q, r)
    ensures !Preferred(rank, seed, purpose, recent, r, q)
  {
    TextTotal(q.questionId.text, r.questionId.text);
    if TextLess(q.questionId.text, r.questionId.text) && TextLess(r.questionId.text, q.questionId.text) {
      TextTransitive(q.questionId.text, r.questionId.text, q.questionId.text);
    }
  }

  lemma {:induction false} BestIsUnique(rank: Ranker, seed: string, purpose: string, recent: set<Id>, a: seq<Question>, b: seq<Question>, pool: set<Question>)
    requires BestOf(rank, seed, purpose, recent, a, pool) && BestOf(rank, seed, purpose, recent, b, pool) && |a| == |b|
    ensures a == b
  {
    if a != [] {
      if a[0] != b[0] {
        PreferredOneWay(rank, seed, purpose, recent, a[0], b[0]);
        assert false;
      }
      BestIsUnique(rank, seed, purpose, recent, a[1..], b[1..], pool - {a[0]});
      assert a == [a[0]] + a[1..] && b == [b[0]] + b[1..];
    }
  }

  lemma TurnOneWay(rank: Ranker, seed: string, position: nat, a: seq<Question>, b: seq<Question>, d: Domain, e: Domain)
    requires CountIn(d, a) == CountIn(d, b) && CountIn(e, a) == CountIn(e, b) && TurnBefore(rank, seed, position, a, d, e)
    ensures !TurnBefore(rank, seed, position, b, e, d)
  {
    TextTotal(DomainName(d), DomainName(e));
    if TextLess(DomainName(d), DomainName(e)) && TextLess(DomainName(e), DomainName(d)) {
      TextTransitive(DomainName(d), DomainName(e), DomainName(d));
    }
  }

  ghost predicate SameQueues(a: seq<Question>, b: seq<Question>) {
    forall d :: Filter(OfDomain(d), a) == Filter(OfDomain(d), b)
  }

  lemma FirstInQueue(s: seq<Question>)
    requires s != []
    ensures Filter(OfDomain(s[0].domain), s) == [s[0]] + Filter(OfDomain(s[0].domain), s[1..])
    ensures forall d :: d != s[0].domain ==> Filter(OfDomain(d), s) == Filter(OfDomain(d), s[1..])
  {
  }

  lemma SameFirstDomain(rank: Ranker, seed: string, a: seq<Question>, b: seq<Question>, previous: Option<Domain>, position: nat)
    requires a != [] && b != [] && SameQueues(a, b)
    requires TurnFor(rank, seed, a, a[0].domain, previous, position) && TurnFor(rank, seed, b, b[0].domain, previous, position)
    ensures a[0].domain == b[0].domain
  {
    var d, e := a[0].domain, b[0].domain;
    FirstInQueue(a);
    FirstInQueue(b);
    assert Filter(OfDomain(d), a) == Filter(OfDomain(d), b) && Filter(OfDomain(e), a) == Filter(OfDomain(e), b);
    assert CountIn(d, a) == CountIn(d, b) > 0 && CountIn(e, a) == CountIn(e, b) > 0;
    if d != e {
      if TurnBefore(rank, seed, position, a, d, e) {
        TurnOneWay(rank, seed, position, a, b, d, e);
      }
    }
  }

  lemma {:induction false} TurnsAreUnique(rank: Ranker, seed: string, a: seq<Question>, b: seq<Question>, previous: Option<Domain>, position: nat)
    requires SameQueues(a, b) && Turns(rank, seed, a, previous, position) && Turns(rank, seed, b, previous, position)
    ensures a == b
  {
    SameEmptiness(a, b);
    if a != [] {
      SameFirstDomain(rank, seed, a, b, previous, position);
      SameFirst(a, b);
      RestQueues(a, b);
      TurnsAreUnique(rank, seed, a[1..], b[1..], Some(a[0].domain), position + 1);
      assert a == [a[0]] + a[1..] && b == [b[0]] + b[1..];
    }
  }

  lemma SameEmptiness(a: seq<Question>, b: seq<Question>)
    requires SameQueues(a, b)
    ensures a == [] <==> b == []
  {
    if a != [] {
      FirstInQueue(a);
      assert Filter(OfDomain(a[0].domain), a) == Filter(OfDomain(a[0].domain), b);
    }
    if b != [] {
      FirstInQueue(b);
      assert Filter(OfDomain(b[0].domain), a) == Filter(OfDomain(b[0].domain), b);
    }
  }

  lemma SameFirst(a: seq<Question>, b: seq<Question>)
    requires a != [] && b != [] && SameQueues(a, b) && a[0].domain == b[0].domain
    ensures a[0] == b[0]
  {
    var d := a[0].domain;
    FirstInQueue(a);
    FirstInQueue(b);
    assert Filter(OfDomain(d), a) == Filter(OfDomain(d), b);
    assert Filter(OfDomain(d), a)[0] == a[0] && Filter(OfDomain(d), b)[0] == b[0];
  }

  lemma RestQueues(a: seq<Question>, b: seq<Question>)
    requires a != [] && b != [] && a[0] == b[0] && SameQueues(a, b)
    ensures SameQueues(a[1..], b[1..])
  {
    FirstInQueue(a);
    FirstInQueue(b);
    forall d ensures Filter(OfDomain(d), a[1..]) == Filter(OfDomain(d), b[1..]) {
      assert Filter(OfDomain(d), a) == Filter(OfDomain(d), b);
      assert Filter(OfDomain(d), a[1..]) == if d == a[0].domain then Filter(OfDomain(d), a)[1..] else Filter(OfDomain(d), a);
      assert Filter(OfDomain(d), b[1..]) == if d == b[0].domain then Filter(OfDomain(d), b)[1..] else Filter(OfDomain(d), b);
    }
  }

  /** The explanation determines the questions and their order. */
  lemma ExplanationDetermines(rank: Ranker, input: SelectionInput, b: Blueprint, parts: Domain -> seq<Question>, extra: seq<Question>,
                              c: Blueprint, others: Domain -> seq<Question>, more: seq<Question>)
    requires Explained(rank, input, b, parts, extra) && Explained(rank, input, c, others, more) && c.unassessedDomain == b.unassessedDomain
    ensures Questions(c) == Questions(b)
  {
    var seed, recent := input.selectionSeed, input.recent;
    forall d ensures parts(d) == others(d) {
      assert |parts(d)| == ReservedFor(input.questionCount, b.unassessedDomain, d) == |others(d)|;
      BestIsUnique(rank, seed, "candidate", recent, parts(d), others(d), EligibleIn(input.eligible, d));
    }
    assert Unreserved(input.eligible, parts) == Unreserved(input.eligible, others);
    BestIsUnique(rank, seed, "flexible-candidate", recent, extra, more, Unreserved(input.eligible, parts));
    forall d ensures Filter(OfDomain(d), Questions(b)) == Filter(OfDomain(d), Questions(c)) {
      assert Filter(OfDomain(d), Questions(b)) == parts(d) + Filter(OfDomain(d), extra);
      assert Filter(OfDomain(d), Questions(c)) == others(d) + Filter(OfDomain(d), more);
    }
    TurnsAreUnique(rank, seed, Questions(b), Questions(c), None, 1);
  }

  // ---------- what this says of single questions ----------

  /** Of five questions each is preferred to every eligible one of its domain that was not selected: it was not
      asked recently or neither is fresh, and then its rank, id and version come first. */
  lemma FiveArePreferred(rank: Ranker, input: SelectionInput, catalogue: seq<Domain>, b: Blueprint, q: Question, r: Question)
    requires Catalogue(catalogue) && Select(rank, input, catalogue) == Ok(b) && input.questionCount == 5
    requires q in Questions(b) && r in input.eligible && r !in Questions(b) && r.domain == q.domain
    ensures Preferred(rank, input.selectionSeed, "candidate", input.recent, q, r)
  {
    var flexible := EachIsPreferred(rank, input, catalogue, b);
  }

  /** Of ten or fifteen questions two or three are flexible. Each flexible one is preferred as a flexible candidate to
      every eligible question that was not selected, and each other one as a candidate to every eligible question of
      its domain that was not selected or is flexible. */
  lemma EachIsPreferred(rank: Ranker, input: SelectionInput, catalogue: seq<Domain>, b: Blueprint) returns (flexible: seq<Question>)
    requires Catalogue(catalogue) && Select(rank, input, catalogue) == Ok(b)
    ensures |flexible| == FlexibleFor(input.questionCount) && forall q :: q in flexible ==> q in Questions(b)
    ensures forall q, r :: q in Questions(b) && q !in flexible && r in input.eligible && (r !in Questions(b) || r in flexible) && r.domain == q.domain ==>
              Preferred(rank, input.selectionSeed, "candidate", input.recent, q, r)
    ensures forall q, r :: q in flexible && r in input.eligible && r !in Questions(b) ==>
              Preferred(rank, input.selectionSeed, "flexible-candidate", input.recent, q, r)
  {
    var parts, extra := SelectIsExplained(rank, input, catalogue, b);
    flexible := extra;
    forall q | q in flexible ensures q in Questions(b) {
      FlexibleMembers(rank, input, b, parts, extra, q);
    }
    forall q, r | q in Questions(b) && q !in flexible && r in input.eligible && (r !in Questions(b) || r in flexible) && r.domain == q.domain
      ensures Preferred(rank, input.selectionSeed, "candidate", input.recent, q, r)
    {
      ReservedArePreferred(rank, input, b, parts, extra, q, r);
    }
    forall q, r | q in flexible && r in input.eligible && r !in Questions(b)
      ensures Preferred(rank, input.selectionSeed, "flexible-candidate", input.recent, q, r)
    {
      FlexibleArePreferred(rank, input, b, parts, extra, q, r);
    }
  }

  lemma InDomain(b: Blueprint, parts: Domain -> seq<Question>, extra: seq<Question>, q: Question)
    requires Filter(OfDomain(q.domain), Questions(b)) == parts(q.domain) + Filter(OfDomain(q.domain), extra)
    ensures q in Questions(b) <==> q in parts(q.domain) || q in extra
  {
    FilterMembers(OfDomain(q.domain), extra);
    FilterMembers(OfDomain(q.domain), Questions(b));
  }

  lemma FlexibleMembers(rank: Ranker, input: SelectionInput, b: Blueprint, parts: Domain -> seq<Question>, extra: seq<Question>, q: Question)
    requires Explained(rank, input, b, parts, extra) && q in extra
    ensures q in Questions(b) && q !in parts(q.domain)
  {
    InDomain(b, parts, extra, q);
    BestAreMembers(rank, input.selectionSeed, "flexible-candidate", input.recent, extra, Unreserved(input.eligible, parts));
  }

  lemma ReservedArePreferred(rank: Ranker, input: SelectionInput, b: Blueprint, parts: Domain -> seq<Question>, extra: seq<Question>, q: Question, r: Question)
    requires Explained(rank, input, b, parts, extra) && q in Questions(b) && q !in extra
    requires r in input.eligible && (r !in Questions(b) || r in extra) && r.domain == q.domain
    ensures Preferred(rank, input.selectionSeed, "candidate", input.recent, q, r)
  {
    InDomain(b, parts, extra, q);
    InDomain(b, parts, extra, r);
    if r in extra {
      FlexibleMembers(rank, input, b, parts, extra, r);
    }
    BestIsPreferred(rank, input.selectionSeed, "candidate", input.recent, parts(q.domain), EligibleIn(input.eligible, q.domain), q, r);
  }

  lemma FlexibleArePreferred(rank: Ranker, input: SelectionInput, b: Blueprint, parts: Domain -> seq<Question>, extra: seq<Question>, q: Question, r: Question)
    requires Explained(rank, input, b, parts, extra) && q in extra && r in input.eligible && r !in Questions(b)
    ensures Preferred(rank, input.selectionSeed, "flexible-candidate", input.recent, q, r)
  {
    InDomain(b, parts, extra, r);
    BestIsPreferred(rank, input.selectionSeed, "flexible-candidate", input.recent, extra, Unreserved(input.eligible, parts), q, r);
  }

  // ---------- the shortages ----------

  predicate ShortOf(count: int, omitted: Domain, eligible: seq<Question>, s: DomainShortage) {
    s.required == ReservedFor(count, Some(omitted), s.domain) && s.available == CountIn(s.domain, eligible) < s.required
  }

  lemma {:induction false} ShortagesMean(count: int, omitted: Domain, eligible: seq<Question>, quota: Domain -> nat, domains: seq<Domain>)
    requires forall d :: quota(d) == ReservedFor(count, Some(omitted), d)
    ensures forall s :: s in ShortagesIn(eligible, quota, domains) ==> s.domain in domains && ShortOf(count, omitted, eligible, s)
    ensures forall d :: d in domains && CountIn(d, eligible) < quota(d) ==> exists s :: s in ShortagesIn(eligible, quota, domains) && s.domain == d
  {
    if domains != [] {
      ShortagesMean(count, omitted, eligible, quota, domains[1..]);
      var d, rest := domains[0], ShortagesIn(eligible, quota, domains[1..]);
      var all := ShortagesIn(eligible, quota, domains);
      assert forall s :: s in rest ==> s in all;
      assert CountIn(d, eligible) < quota(d) ==> all[0] == DomainShortage(d, quota(d), CountIn(d, eligible)) && all[0] in all;
      assert domains == [d] + domains[1..];
    }
  }

  /** A shortage names exactly the domains with fewer eligible questions than are reserved for them. */
  lemma ShortageIsExact(rank: Ranker, input: SelectionInput, catalogue: seq<Domain>, shortages: seq<DomainShortage>, required: int, available: nat)
    returns (omitted: Domain)
    requires Catalogue(catalogue) && Select(rank, input, catalogue) == Err(Shortage(shortages, required, available))
    ensures required == input.questionCount && available == |input.eligible|
    ensures forall s :: s in shortages ==> ShortOf(input.questionCount, omitted, input.eligible, s)
    ensures forall d :: CountIn(d, input.eligible) < ReservedFor(input.questionCount, Some(omitted), d) ==> exists s :: s in shortages && s.domain == d
    ensures shortages != [] || available < required
    ensures catalogue != [] && omitted == OmittedDomain(rank, input, catalogue)
  {
    var quota: Domain -> nat;
    quota, omitted := ShortagesAre(rank, input, catalogue, shortages, required, available);
    ShortagesMean(input.questionCount, omitted, input.eligible, quota, catalogue);
    forall d ensures d in catalogue {
    }
  }

  lemma ReservedAreQuota(rank: Ranker, input: SelectionInput, catalogue: seq<Domain>, quota: Domain -> nat)
    requires catalogue != [] && SupportedCount(input.questionCount) && quota == Quota(rank, input, catalogue)
    ensures forall d :: quota(d) == ReservedFor(input.questionCount, Some(OmittedDomain(rank, input, catalogue)), d)
  {
  }

  lemma ArrangedIsNoShortage(input: SelectionInput, parts: Domain -> seq<Question>, extra: seq<Question>, catalogue: seq<Domain>, choose: Chooser)
    requires Catalogue(catalogue) && Greedy(choose, catalogue)
    ensures Arranged(input, parts, extra, catalogue, choose).Err? ==> !Arranged(input, parts, extra, catalogue, choose).error.Shortage?
  {
  }

  lemma SelectedShort(pick: Picker, input: SelectionInput, catalogue: seq<Domain>, choose: Chooser, quota: Domain -> nat,
                      shortages: seq<DomainShortage>, required: int, available: nat)
    requires Catalogue(catalogue) && Greedy(choose, catalogue)
    requires Selected(pick, input, catalogue, choose, quota) == Err(Shortage(shortages, required, available))
    ensures required == input.questionCount && available == |input.eligible|
    ensures shortages == ShortagesIn(input.eligible, quota, catalogue) && (shortages != [] || available < required)
  {
    var parts := Reserved(pick, input.eligible, quota);
    ArrangedIsNoShortage(input, parts, Extra(pick, input, Joined(parts, catalogue)), catalogue, choose);
  }

  lemma ShortagesAre(rank: Ranker, input: SelectionInput, catalogue: seq<Domain>, shortages: seq<DomainShortage>, required: int, available: nat)
    returns (quota: Domain -> nat, omitted: Domain)
    requires Catalogue(catalogue) && Select(rank, input, catalogue) == Err(Shortage(shortages, required, available))
    ensures catalogue != [] && omitted == OmittedDomain(rank, input, catalogue)
    ensures forall d :: quota(d) == ReservedFor(input.questionCount, Some(omitted), d)
    ensures required == input.questionCount && available == |input.eligible|
    ensures shortages == ShortagesIn(input.eligible, quota, catalogue) && (shortages != [] || available < required)
  {
    SomeDomain(catalogue);
    SeededIsGreedy(rank, input.selectionSeed, catalogue);
    quota, omitted := Quota(rank, input, catalogue), OmittedDomain(rank, input, catalogue);
    ReservedAreQuota(rank, input, catalogue, quota);
    SelectedShort(SeededPicker(rank, input.selectionSeed, input.recent), input, catalogue, SeededChooser(rank, input.selectionSeed, catalogue),
                  quota, shortages, required, available);
  }
}
