/** The selector as the source runs it: loops over maps and lists, proved against `Selection.Select`
    (packages/domain/src/blueprint-selection.ts). */
module Selector {
  import opened Basics
  import opened Sequences
  import opened TextOrder
  import opened InterviewModel
  import opened Coverage
  import opened Interleave
  import opened Selection
  import opened SelectionTheorems

  /** The candidates per domain, in their input order; a repeated id is an error. */
  method GroupCandidates(candidates: seq<Question>) returns (r: Result<Queues, SelectionFault>)
    ensures match FirstDuplicate(candidates, {})
            case Some(id) => r == Err(DuplicateCandidate(id))
            case None => r.Ok? && forall d :: QueueOf(r.value, d) == Pool(candidates, d)
  {
    var ids: set<Id> := {};
    var grouped: Queues := map[];
    for k := 0 to |candidates|
      invariant FirstDuplicate(candidates, {}) == FirstDuplicate(candidates[k..], ids)
      invariant forall d :: QueueOf(grouped, d) == Pool(candidates[..k], d)
    {
      var candidate := candidates[k];
      if candidate.questionId in ids {
        return Err(DuplicateCandidate(candidate.questionId));
      }
      ids := ids + {candidate.questionId};
      assert candidates[k..][1..] == candidates[k + 1..];
      GroupStep(grouped, candidates, k);
      grouped := Push(grouped, candidate);
    }
    assert candidates[..|candidates|] == candidates;
    return Ok(grouped);
  }

  function Push(queues: Queues, q: Question): Queues {
    queues[q.domain := QueueOf(queues, q.domain) + [q]]
  }

  lemma GroupStep(grouped: Queues, candidates: seq<Question>, k: nat)
    requires k < |candidates| && forall d :: QueueOf(grouped, d) == Pool(candidates[..k], d)
    ensures forall d :: QueueOf(Push(grouped, candidates[k]), d) == Pool(candidates[..k + 1], d)
  {
    forall d ensures QueueOf(Push(grouped, candidates[k]), d) == Pool(candidates[..k + 1], d) {
      FilterSnoc(OfDomain(d), candidates, k);
      assert QueueOf(grouped, d) == Pool(candidates[..k], d);
    }
  }

  // ---------- the omitted domain of a five-question interview ----------

  datatype Choice = Choice(omitted: Domain, unavailable: nat, unavoidable: nat, seedRank: nat)

  function ChoiceKey(choice: Choice): Key {
    Key(choice.unavailable, choice.unavoidable, "", choice.seedRank)
  }

  function ChoiceOf(rank: Ranker, input: SelectionInput, catalogue: seq<Domain>): Domain -> Choice {
    (d: Domain) => Choice(d, |Filter(Unavailable(input.eligible, d), catalogue)|,
                          |Filter(Unavoidable(input.eligible, input.recent, d), catalogue)|,
                          SeedRank(rank, input.selectionSeed, catalogue, d))
  }

  lemma FilterSnoc<T(!new)>(p: T -> bool, s: seq<T>, k: nat)
    requires k < |s|
    ensures Filter(p, s[..k + 1]) == Filter(p, s[..k]) + if p(s[k]) then [s[k]] else []
  {
    assert s[..k + 1] == s[..k] + [s[k]];
    FilterAppend(p, s[..k], [s[k]]);
  }

  /** How many domains besides `omitted` have no candidate, and how many only recent ones. */
  method CountMissing(input: SelectionInput, grouped: Queues, omitted: Domain, catalogue: seq<Domain>)
    returns (unavailable: nat, unavoidable: nat)
    requires forall d :: QueueOf(grouped, d) == Pool(input.eligible, d)
    ensures unavailable == |Filter(Unavailable(input.eligible, omitted), catalogue)|
    ensures unavoidable == |Filter(Unavoidable(input.eligible, input.recent, omitted), catalogue)|
  {
    unavailable, unavoidable := 0, 0;
    for k := 0 to |catalogue|
      invariant unavailable == |Filter(Unavailable(input.eligible, omitted), catalogue[..k])|
      invariant unavoidable == |Filter(Unavoidable(input.eligible, input.recent, omitted), catalogue[..k])|
    {
      var domain := catalogue[k];
      FilterSnoc(Unavailable(input.eligible, omitted), catalogue, k);
      FilterSnoc(Unavoidable(input.eligible, input.recent, omitted), catalogue, k);
      if domain != omitted {
        var candidates := QueueOf(grouped, domain);
        if |candidates| == 0 {
          unavailable := unavailable + 1;
        } else if forall candidate :: candidate in candidates ==> candidate.questionId in input.recent {
          unavoidable := unavoidable + 1;
        }
      }
    }
    assert catalogue[..|catalogue|] == catalogue;
  }

  lemma {:induction false} InsertMap<T, U>(f: T -> U, less: (T, T) -> bool, less': (U, U) -> bool, x: T, s: seq<T>)
    requires forall y, z :: less'(f(y), f(z)) == less(y, z)
    ensures Insert(less', f(x), Map(f, s)) == Map(f, Insert(less, x, s))
  {
    if s != [] && less(s[0], x) {
      InsertMap(f, less, less', x, s[1..]);
      assert Map(f, s)[1..] == Map(f, s[1..]);
    }
  }

  /** Sorting records by a key is sorting what they were made from. */
  lemma {:induction false} SortMap<T, U>(f: T -> U, less: (T, T) -> bool, less': (U, U) -> bool, s: seq<T>)
    requires forall y, z :: less'(f(y), f(z)) == less(y, z)
    ensures SortBy(less', Map(f, s)) == Map(f, SortBy(less, s))
  {
    if s != [] {
      SortMap(f, less, less', s[1..]);
      assert Map(f, s)[1..] == Map(f, s[1..]);
      InsertMap(f, less, less', s[0], SortBy(less, s[1..]));
    }
  }

  lemma OmittedAmongChoices(rank: Ranker, input: SelectionInput, catalogue: seq<Domain>)
    requires catalogue != []
    ensures SortBy(KeyOrder(ChoiceKey), Map(ChoiceOf(rank, input, catalogue), catalogue))[0].omitted == OmittedDomain(rank, input, catalogue)
  {
    SortByKeyMap(ChoiceOf(rank, input, catalogue), OmitKey(rank, input, catalogue), ChoiceKey, catalogue);
  }

  lemma SortByKeyMap<T(!new), U(!new)>(f: T -> U, key: T -> Key, key': U -> Key, s: seq<T>)
    requires forall x :: key'(f(x)) == key(x)
    ensures SortBy(KeyOrder(key'), Map(f, s)) == Map(f, SortBy(KeyOrder(key), s))
  {
    SortMap(f, KeyOrder(key), KeyOrder(key'), s);
  }

  lemma MapSnoc<T, U>(f: T -> U, s: seq<T>, k: nat)
    requires k < |s|
    ensures Map(f, s[..k + 1]) == Map(f, s[..k]) + [f(s[k])]
  {
  }

  method ChooseOmitted(rank: Ranker, input: SelectionInput, grouped: Queues, catalogue: seq<Domain>) returns (omitted: Domain)
    requires catalogue != [] && forall d :: QueueOf(grouped, d) == Pool(input.eligible, d)
    ensures omitted == OmittedDomain(rank, input, catalogue)
  {
    ghost var make := ChoiceOf(rank, input, catalogue);
    var choices: seq<Choice> := [];
    for k := 0 to |catalogue|
      invariant choices == Map(make, catalogue[..k])
    {
      var unavailable, unavoidable := CountMissing(input, grouped, catalogue[k], catalogue);
      MapSnoc(make, catalogue, k);
      choices := choices + [Choice(catalogue[k], unavailable, unavoidable, SeedRank(rank, input.selectionSeed, catalogue, catalogue[k]))];
    }
    assert catalogue[..|catalogue|] == catalogue;
    OmittedAmongChoices(rank, input, catalogue);
    return SortBy(KeyOrder(ChoiceKey), choices)[0].omitted;
  }

  lemma QuotaAt(rank: Ranker, input: SelectionInput, catalogue: seq<Domain>, d: Domain)
    requires catalogue != [] && SupportedCount(input.questionCount)
    ensures Quota(rank, input, catalogue)(d)
            == if input.questionCount == 5 then (if d == OmittedDomain(rank, input, catalogue) then 0 else 1)
               else if input.questionCount == 10 then (if d == GoLanguage || d == ConcurrencyRuntimePerformance then 2 else 1)
               else 2
  {
  }

  /** The quota table; the count and the seed are checked here. */
  method DomainMinimums(rank: Ranker, input: SelectionInput, grouped: Queues, catalogue: seq<Domain>)
    returns (r: Result<map<Domain, nat>, SelectionFault>)
    requires Catalogue(catalogue) && catalogue != [] && forall d :: QueueOf(grouped, d) == Pool(input.eligible, d)
    ensures r == Err(UnsupportedCount) <==> !SupportedCount(input.questionCount)
    ensures r == Err(BlankSeed) <==> SupportedCount(input.questionCount) && !NonBlank(input.selectionSeed)
    ensures r.Ok? <==> SupportedCount(input.questionCount) && NonBlank(input.selectionSeed)
    ensures r.Ok? ==> forall d :: d in r.value && r.value[d] == Quota(rank, input, catalogue)(d)
  {
    if !SupportedCount(input.questionCount) {
      return Err(UnsupportedCount);
    }
    if !NonBlank(input.selectionSeed) {
      return Err(BlankSeed);
    }
    forall d ensures d in catalogue && Quota(rank, input, catalogue)(d)
            == if input.questionCount == 5 then (if d == OmittedDomain(rank, input, catalogue) then 0 else 1)
               else if input.questionCount == 10 then (if d == GoLanguage || d == ConcurrencyRuntimePerformance then 2 else 1)
               else 2 {
      QuotaAt(rank, input, catalogue, d);
    }
    if input.questionCount == 5 {
      var omitted := ChooseOmitted(rank, input, grouped, catalogue);
      return Ok(map d | d in catalogue :: if d == omitted then 0 else 1);
    }
    var minimums: map<Domain, nat> := map d | d in catalogue :: if input.questionCount == 10 then 1 else 2;
    if input.questionCount == 10 {
      minimums := minimums[GoLanguage := 2][ConcurrencyRuntimePerformance := 2];
    }
    return Ok(minimums);
  }

  // ---------- reserving and topping up ----------

  lemma ShortageStep(found: seq<DomainShortage>, eligible: seq<Question>, quota: Domain -> nat, catalogue: seq<Domain>, k: nat)
    requires k < |catalogue|
    ensures var available := |Pool(eligible, catalogue[k])|;
            found + ShortagesIn(eligible, quota, catalogue[k..])
            == (if available < quota(catalogue[k]) then found + [DomainShortage(catalogue[k], quota(catalogue[k]), available)] else found)
               + ShortagesIn(eligible, quota, catalogue[k + 1..])
  {
    assert catalogue[k..][1..] == catalogue[k + 1..];
  }

  /** The shortages, domain by domain in catalogue order. */
  method FindShortages(grouped: Queues, minimums: map<Domain, nat>, catalogue: seq<Domain>, ghost eligible: seq<Question>, ghost quota: Domain -> nat)
    returns (shortages: seq<DomainShortage>)
    requires forall d :: QueueOf(grouped, d) == Pool(eligible, d)
    requires forall d :: d in minimums && minimums[d] == quota(d)
    ensures shortages == ShortagesIn(eligible, quota, catalogue)
  {
    shortages := [];
    for k := 0 to |catalogue|
      invariant shortages + ShortagesIn(eligible, quota, catalogue[k..]) == ShortagesIn(eligible, quota, catalogue)
    {
      var domain := catalogue[k];
      var required, available := minimums[domain], |QueueOf(grouped, domain)|;
      ShortageStep(shortages, eligible, quota, catalogue, k);
      if available < required {
        shortages := shortages + [DomainShortage(domain, required, available)];
      }
    }
  }

  /** The map of selected questions holds exactly the given queues, none of them empty. */
  ghost predicate Holds(selected: OrderedQueues, parts: Domain -> seq<Question>) {
    selected.Valid() && selected.Full() && forall d :: QueueOf(selected.table, d) == parts(d)
  }

  lemma {:induction false} JoinedSnoc(parts: Domain -> seq<Question>, domains: seq<Domain>, d: Domain)
    ensures Joined(parts, domains + [d]) == Joined(parts, domains) + parts(d)
  {
    if domains == [] {
      assert domains + [d] == [d];
      assert Joined(parts, [d]) == parts(d) + Joined(parts, []);
    } else {
      assert (domains + [d])[1..] == domains[1..] + [d];
      JoinedSnoc(parts, domains[1..], d);
    }
  }

  lemma {:induction false} HasIdAppend(a: seq<Question>, b: seq<Question>, id: Id)
    ensures HasId(a + b, id) <==> HasId(a, id) || HasId(b, id)
  {
    HasIdMember(a, id);
    HasIdMember(b, id);
    HasIdMember(a + b, id);
  }

  /** A prefix of the catalogue has been filed. */
  ghost predicate HoldsPrefix(selected: OrderedQueues, parts: Domain -> seq<Question>, done: seq<Domain>) {
    selected.Valid() && selected.Full() && forall d :: QueueOf(selected.table, d) == if d in done then parts(d) else []
  }

  lemma FileOne(selected: OrderedQueues, d: Domain, queue: seq<Question>)
    requires selected.Valid() && selected.Full() && queue != []
    ensures selected.Set(d, queue).Valid() && selected.Set(d, queue).Full()
    ensures forall e :: QueueOf(selected.Set(d, queue).table, e) == if e == d then queue else QueueOf(selected.table, e)
  {
    if d !in selected.table {
      assert d !in ToSet(selected.order);
      NoDupSnoc(selected.order, d);
      assert ToSet(selected.order + [d]) == ToSet(selected.order) + {d};
    }
  }

  function SizesIn(selected: OrderedQueues): nat {
    Held(selected.table, selected.order)
  }

  lemma {:induction false} HeldAgrees(a: Queues, b: Queues, domains: seq<Domain>)
    requires forall d :: d in domains ==> QueueOf(a, d) == QueueOf(b, d)
    ensures Held(a, domains) == Held(b, domains)
  {
    if domains != [] {
      HeldAgrees(a, b, domains[1..]);
    }
  }

  lemma {:induction false} HeldSnoc(queues: Queues, domains: seq<Domain>, d: Domain)
    ensures Held(queues, domains + [d]) == Held(queues, domains) + |QueueOf(queues, d)|
  {
    if domains == [] {
      assert domains + [d] == [d];
    } else {
      assert (domains + [d])[1..] == domains[1..] + [d];
      HeldSnoc(queues, domains[1..], d);
    }
  }

  lemma FileNew(selected: OrderedQueues, d: Domain, queue: seq<Question>)
    requires selected.Valid() && d !in selected.table
    ensures SizesIn(selected.Set(d, queue)) == SizesIn(selected) + |queue|
  {
    var after := selected.Set(d, queue);
    assert d !in ToSet(selected.order);
    HeldSnoc(after.table, selected.order, d);
    HeldAgrees(after.table, selected.table, selected.order);
  }

  lemma FullPart(pick: Picker, recent: set<Id>, eligible: seq<Question>, quota: Domain -> nat, d: Domain)
    requires GoodPicker(pick, recent) && DistinctIds(eligible) && quota(d) <= |Pool(eligible, d)|
    ensures |Reserved(pick, eligible, quota)(d)| == quota(d)
  {
    PoolDistinct(eligible, d);
    assert GoodPick(recent, Pool(eligible, d), quota(d), pick(CandidateRank, Pool(eligible, d), quota(d)));
  }

  /** The domains done so far: their parts are filed, counted, and their ids collected. */
  ghost predicate Filing(selected: OrderedQueues, ids: set<Id>, parts: Domain -> seq<Question>, done: seq<Domain>) {
    && HoldsPrefix(selected, parts, done)
    && SizesIn(selected) == |Joined(parts, done)|
    && (forall id :: id in ids <==> HasId(Joined(parts, done), id))
  }

  lemma JoinedIds(parts: Domain -> seq<Question>, done: seq<Domain>, d: Domain, ids: set<Id>)
    requires forall id :: id in ids <==> HasId(Joined(parts, done), id)
    ensures forall id :: id in ids + (set q | q in parts(d) :: q.questionId) <==> HasId(Joined(parts, done + [d]), id)
  {
    JoinedSnoc(parts, done, d);
    forall id ensures id in ids + (set q | q in parts(d) :: q.questionId) <==> HasId(Joined(parts, done + [d]), id) {
      HasIdAppend(Joined(parts, done), parts(d), id);
      HasIdMember(parts(d), id);
    }
  }

  lemma FilingSkips(selected: OrderedQueues, ids: set<Id>, parts: Domain -> seq<Question>, done: seq<Domain>, d: Domain)
    requires Filing(selected, ids, parts, done) && parts(d) == []
    ensures Filing(selected, ids, parts, done + [d])
  {
    JoinedSnoc(parts, done, d);
    assert Joined(parts, done + [d]) == Joined(parts, done);
  }

  lemma FilingAdds(selected: OrderedQueues, ids: set<Id>, parts: Domain -> seq<Question>, done: seq<Domain>, d: Domain)
    requires Filing(selected, ids, parts, done) && parts(d) != [] && d !in done
    ensures Filing(selected.Set(d, parts(d)), ids + (set q | q in parts(d) :: q.questionId), parts, done + [d])
  {
    JoinedSnoc(parts, done, d);
    JoinedIds(parts, done, d, ids);
    assert QueueOf(selected.table, d) == [];
    FileOne(selected, d, parts(d));
    FileNew(selected, d, parts(d));
  }

  /** The reserved questions of every domain with a quota, filed in a map, with the set of their ids. */
  method Reserve(rank: Ranker, input: SelectionInput, grouped: Queues, minimums: map<Domain, nat>, catalogue: seq<Domain>,
                 ghost quota: Domain -> nat, ghost parts: Domain -> seq<Question>)
    returns (selected: OrderedQueues, ids: set<Id>)
    requires NoDup(catalogue)
    requires forall d :: QueueOf(grouped, d) == Pool(input.eligible, d)
    requires forall d :: d in minimums && minimums[d] == quota(d) == |parts(d)|
    requires forall d :: parts(d) == Pick(rank, input.selectionSeed, CandidateRank, input.recent, Pool(input.eligible, d), quota(d))
    ensures Filing(selected, ids, parts, catalogue)
  {
    selected, ids := OrderedQueues([], map[]), {};
    for k := 0 to |catalogue|
      invariant Filing(selected, ids, parts, catalogue[..k])
    {
      var domain := catalogue[k];
      var required := minimums[domain];
      PrefixGrows(catalogue, k);
      if required == 0 {
        FilingSkips(selected, ids, parts, catalogue[..k], domain);
      } else {
        var chosen := PickBest(rank, input.selectionSeed, CandidateRank, input.recent, QueueOf(grouped, domain), required);
        FilingAdds(selected, ids, parts, catalogue[..k], domain);
        ids := ids + set q | q in chosen :: q.questionId;
        selected := selected.Set(domain, chosen);
      }
    }
    assert catalogue[..|catalogue|] == catalogue;
  }

  lemma PrefixGrows<T>(s: seq<T>, k: nat)
    requires k < |s| && NoDup(s)
    ensures s[..k + 1] == s[..k] + [s[k]] && s[k] !in s[..k]
  {
    NoDupPrefix(s, k + 1);
    assert s[..k + 1] == s[..k] + [s[k]];
    NoDupSnoc(s[..k], s[k]);
  }

  /** Rank the fresh candidates, cut the list, and top it up with ranked recent ones when it is short. */
  method PickBest(rank: Ranker, seed: string, purpose: Purpose, recent: set<Id>, pool: seq<Question>, slots: int)
    returns (chosen: seq<Question>)
    ensures chosen == Pick(rank, seed, purpose, recent, pool, slots)
  {
    chosen := Take(Ranked(rank, seed, purpose, Filter(Fresh(recent), pool)), slots);
    if |chosen| < slots {
      chosen := chosen + Take(Ranked(rank, seed, purpose, Filter(Stale(recent), pool)), slots - |chosen|);
    }
  }

  function With(parts: Domain -> seq<Question>, extra: seq<Question>): Domain -> seq<Question> {
    (d: Domain) => parts(d) + Filter(OfDomain(d), extra)
  }

  lemma WithSnoc(parts: Domain -> seq<Question>, extra: seq<Question>, k: nat, d: Domain)
    requires k < |extra|
    ensures With(parts, extra[..k + 1])(d) == With(parts, extra[..k])(d) + if extra[k].domain == d then [extra[k]] else []
  {
    FilterSnoc(OfDomain(d), extra, k);
  }

  lemma FileOneMore(selected: OrderedQueues, before: Domain -> seq<Question>, after: Domain -> seq<Question>, q: Question)
    requires Holds(selected, before)
    requires forall d :: after(d) == before(d) + if q.domain == d then [q] else []
    ensures Holds(selected.Set(q.domain, QueueOf(selected.table, q.domain) + [q]), after)
  {
    FileOne(selected, q.domain, QueueOf(selected.table, q.domain) + [q]);
  }

  lemma FileExtraStep(selected: OrderedQueues, parts: Domain -> seq<Question>, extra: seq<Question>, k: nat)
    requires k < |extra| && Holds(selected, With(parts, extra[..k]))
    ensures var d := extra[k].domain;
            Holds(selected.Set(d, QueueOf(selected.table, d) + [extra[k]]), With(parts, extra[..k + 1]))
  {
    var before, after := With(parts, extra[..k]), With(parts, extra[..k + 1]);
    forall d ensures after(d) == before(d) + if extra[k].domain == d then [extra[k]] else [] {
      WithSnoc(parts, extra, k, d);
    }
    FileOneMore(selected, before, after, extra[k]);
  }

  /** Each flexible question goes to the end of its domain's queue. */
  method FileExtra(reserved: OrderedQueues, extra: seq<Question>, ghost parts: Domain -> seq<Question>)
    returns (selected: OrderedQueues)
    requires Holds(reserved, parts)
    ensures Holds(selected, With(parts, extra))
  {
    selected := reserved;
    for k := 0 to |extra|
      invariant Holds(selected, With(parts, extra[..k]))
    {
      var candidate := extra[k];
      var queue := QueueOf(selected.table, candidate.domain) + [candidate];
      FileExtraStep(selected, parts, extra, k);
      selected := selected.Set(candidate.domain, queue);
    }
    assert extra[..|extra|] == extra;
  }

  lemma HoldsIsQueues(selected: OrderedQueues, parts: Domain -> seq<Question>, extra: seq<Question>, catalogue: seq<Domain>)
    requires Catalogue(catalogue) && Holds(selected, With(parts, extra))
    ensures selected.table == QueuesOf(parts, extra, catalogue)
  {
    var queues := QueuesOf(parts, extra, catalogue);
    forall d ensures d in selected.table <==> d in queues {
      assert With(parts, extra)(d) == parts(d) + Filter(OfDomain(d), extra);
      assert d in catalogue;
    }
    forall d | d in queues ensures queues[d] == selected.table[d] {
      assert With(parts, extra)(d) == parts(d) + Filter(OfDomain(d), extra);
    }
  }

  function NotIn(ids: set<Id>): Question -> bool {
    (q: Question) => q.questionId !in ids
  }

  lemma {:induction false} FilterAlike<T(!new)>(p: T -> bool, p': T -> bool, s: seq<T>)
    requires forall x :: p(x) == p'(x)
    ensures Filter(p, s) == Filter(p', s)
  {
    if s != [] {
      FilterAlike(p, p', s[1..]);
    }
  }

  /** The questions that are left, the flexible choice among them, and the map with both kinds of questions. */
  method TopUpSelected(rank: Ranker, input: SelectionInput, reserved: OrderedQueues, ids: set<Id>, catalogue: seq<Domain>,
                       ghost parts: Domain -> seq<Question>)
    returns (selected: Option<OrderedQueues>, ghost extra: seq<Question>)
    requires Catalogue(catalogue) && Filing(reserved, ids, parts, catalogue)
    ensures extra == Extra(SeededPicker(rank, input.selectionSeed, input.recent), input, Joined(parts, catalogue))
    ensures selected.Some? <==> |extra| == input.questionCount - |Joined(parts, catalogue)|
    ensures selected.Some? ==> Holds(selected.value, With(parts, extra))
  {
    var slots := input.questionCount - SizesIn(reserved);
    var remaining := Filter(NotIn(ids), input.eligible);
    FilterAlike(NotIn(ids), NotAmong(Joined(parts, catalogue)), input.eligible);
    var flexible := PickBest(rank, input.selectionSeed, FlexibleRank, input.recent, remaining, slots);
    extra := flexible;
    if |flexible| != slots {
      return None, extra;
    }
    var filed := FileExtra(reserved, flexible, parts);
    return Some(filed), extra;
  }

  /** Number the questions, derive the unassessed domain and validate the coverage. */
  method FinishBlueprint(input: SelectionInput, ordered: seq<Question>, catalogue: seq<Domain>) returns (r: Result<Blueprint, SelectionFault>)
    ensures r == Finish(input.selectionSeed, input.questionCount, ordered, catalogue)
  {
    var unassessed := DerivedOver(ordered, input.questionCount, catalogue);
    if unassessed.Err? {
      return Err(CoverageFailure(unassessed.error));
    }
    var problem := ProblemOver(input.questionCount, ordered, unassessed.value, catalogue);
    if problem.Some? {
      return Err(CoverageFailure(problem.value));
    }
    return Ok(Blueprint(input.selectionSeed, unassessed.value, Numbered(ordered)));
  }

  lemma {:induction false} ShortagesNone(eligible: seq<Question>, quota: Domain -> nat, domains: seq<Domain>)
    requires ShortagesIn(eligible, quota, domains) == []
    ensures forall d :: d in domains ==> quota(d) <= |Pool(eligible, d)|
  {
    if domains != [] {
      ShortagesNone(eligible, quota, domains[1..]);
      assert domains == [domains[0]] + domains[1..];
    }
  }

  lemma ReservedAreFull(rank: Ranker, input: SelectionInput, quota: Domain -> nat, parts: Domain -> seq<Question>)
    requires DistinctIds(input.eligible) && forall d :: quota(d) <= |Pool(input.eligible, d)|
    requires parts == Reserved(SeededPicker(rank, input.selectionSeed, input.recent), input.eligible, quota)
    ensures forall d :: |parts(d)| == quota(d)
    ensures forall d :: parts(d) == Pick(rank, input.selectionSeed, CandidateRank, input.recent, Pool(input.eligible, d), quota(d))
  {
    SeededIsGood(rank, input.selectionSeed, input.recent);
    forall d ensures |parts(d)| == quota(d) {
      FullPart(SeededPicker(rank, input.selectionSeed, input.recent), input.recent, input.eligible, quota, d);
    }
  }

  /** After the shortage check: reserve, top up, interleave, finish. */
  method Arrange(rank: Ranker, input: SelectionInput, grouped: Queues, minimums: map<Domain, nat>, catalogue: seq<Domain>, ghost quota: Domain -> nat)
    returns (r: Result<Blueprint, SelectionFault>)
    requires Catalogue(catalogue) && Greedy(SeededChooser(rank, input.selectionSeed, catalogue), catalogue) && DistinctIds(input.eligible)
    requires forall d :: QueueOf(grouped, d) == Pool(input.eligible, d)
    requires forall d :: d in minimums && minimums[d] == quota(d) <= |Pool(input.eligible, d)|
    ensures var pick := SeededPicker(rank, input.selectionSeed, input.recent);
            var parts := Reserved(pick, input.eligible, quota);
            r == Arranged(input, parts, Extra(pick, input, Joined(parts, catalogue)), catalogue, SeededChooser(rank, input.selectionSeed, catalogue))
  {
    ghost var choose := SeededChooser(rank, input.selectionSeed, catalogue);
    ghost var parts := Reserved(SeededPicker(rank, input.selectionSeed, input.recent), input.eligible, quota);
    ReservedAreFull(rank, input, quota, parts);
    var reserved, ids := Reserve(rank, input, grouped, minimums, catalogue, quota, parts);
    var selected, extra := TopUpSelected(rank, input, reserved, ids, catalogue, parts);
    if selected.None? {
      return Err(FlexibleShortage);
    }
    HoldsIsQueues(selected.value, parts, extra, catalogue);
    var ordered := InterleaveSelected(rank, input.selectionSeed, selected.value, catalogue, choose);
    if ordered.None? {
      return Err(EmptyQueue);
    }
    r := FinishBlueprint(input, ordered.value, catalogue);
  }

  /** The selector, once the candidates are grouped. */
  method SelectGrouped(rank: Ranker, input: SelectionInput, grouped: Queues, catalogue: seq<Domain>) returns (r: Result<Blueprint, SelectionFault>)
    requires Catalogue(catalogue) && FirstDuplicate(input.eligible, {}).None?
    requires forall d :: QueueOf(grouped, d) == Pool(input.eligible, d)
    ensures r == Select(rank, input, catalogue)
  {
    SomeDomain(catalogue);
    SeededIsGreedy(rank, input.selectionSeed, catalogue);
    var minimums := DomainMinimums(rank, input, grouped, catalogue);
    if minimums.Err? {
      return Err(minimums.error);
    }
    ghost var quota := Quota(rank, input, catalogue);
    var shortages := FindShortages(grouped, minimums.value, catalogue, input.eligible, quota);
    if |shortages| > 0 || |input.eligible| < input.questionCount {
      return Err(Shortage(shortages, input.questionCount, |input.eligible|));
    }
    FirstDuplicateNone(input.eligible, {});
    ShortagesNone(input.eligible, quota, catalogue);
    r := Arrange(rank, input, grouped, minimums.value, catalogue, quota);
  }

  /** The selector. */
  method SelectBlueprint(rank: Ranker, input: SelectionInput, catalogue: seq<Domain>) returns (r: Result<Blueprint, SelectionFault>)
    requires Catalogue(catalogue)
    ensures r == Select(rank, input, catalogue)
  {
    FirstDuplicateNone(input.eligible, {});
    var grouped := GroupCandidates(input.eligible);
    if grouped.Err? {
      return Err(grouped.error);
    }
    r := SelectGrouped(rank, input, grouped.value, catalogue);
  }
}
