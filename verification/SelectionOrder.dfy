/** The order of the eligible questions never shows in the blueprint. */
module SelectionOrder {
  import opened Sequences
  import opened TextOrder
  import opened InterviewModel
  import opened Coverage
  import opened Interleave
  import opened Selection
  import opened SelectionTheorems

  /** The same candidates with distinct ids, in any order. */
  ghost predicate Shuffled(a: seq<Question>, b: seq<Question>) {
    DistinctIds(a) && DistinctIds(b) && |a| == |b| && forall q :: q in a <==> q in b
  }

  lemma ShuffledFilter(p: Question -> bool, a: seq<Question>, b: seq<Question>)
    requires Shuffled(a, b)
    ensures Shuffled(Filter(p, a), Filter(p, b))
  {
    DistinctNoDup(a);
    DistinctNoDup(b);
    FilterNoDup(p, a);
    FilterNoDup(p, b);
    FilterMembers(p, a);
    FilterMembers(p, b);
    DistinctPart(a, Filter(p, a));
    DistinctPart(b, Filter(p, b));
    assert ToSet(Filter(p, a)) == ToSet(Filter(p, b));
    SameElements(Filter(p, a), Filter(p, b));
  }

  lemma RankedShuffled(rank: Ranker, seed: string, purpose: Purpose, a: seq<Question>, b: seq<Question>)
    requires Shuffled(a, b)
    ensures Ranked(rank, seed, purpose, a) == Ranked(rank, seed, purpose, b)
  {
    DistinctNoDup(a);
    DistinctNoDup(b);
    CandidatesTotal(rank, seed, purpose, a);
    SortForgetsOrder(KeyOrder(CandidateKey(rank, seed, purpose)), a, b);
  }

  lemma PickShuffled(rank: Ranker, seed: string, purpose: Purpose, recent: set<Id>, a: seq<Question>, b: seq<Question>, k: int)
    ensures Shuffled(a, b) ==> Pick(rank, seed, purpose, recent, a, k) == Pick(rank, seed, purpose, recent, b, k)
  {
    if Shuffled(a, b) {
      ShuffledFilter(Fresh(recent), a, b);
      ShuffledFilter(Stale(recent), a, b);
      RankedShuffled(rank, seed, purpose, Filter(Fresh(recent), a), Filter(Fresh(recent), b));
      RankedShuffled(rank, seed, purpose, Filter(Stale(recent), a), Filter(Stale(recent), b));
    }
  }

  ghost predicate Blind(pick: Picker) {
    forall purpose, a, b, k {:trigger pick(purpose, a, k), Shuffled(a, b)} ::
      Shuffled(a, b) ==> pick(purpose, a, k) == pick(purpose, b, k)
  }

  lemma SeededIsBlind(rank: Ranker, seed: string, recent: set<Id>)
    ensures Blind(SeededPicker(rank, seed, recent))
  {
    forall purpose: Purpose, a, b, k | Shuffled(a, b)
      ensures SeededPicker(rank, seed, recent)(purpose, a, k) == SeededPicker(rank, seed, recent)(purpose, b, k)
    {
      PickShuffled(rank, seed, purpose, recent, a, b, k);
    }
  }

  // ---------- functions that agree pointwise ----------

  lemma {:induction false} FilterSame<T(!new)>(p: T -> bool, p': T -> bool, s: seq<T>)
    requires forall x :: p(x) == p'(x)
    ensures Filter(p, s) == Filter(p', s)
  {
    if s != [] {
      FilterSame(p, p', s[1..]);
    }
  }

  lemma {:induction false} InsertSame<T(!new)>(less: (T, T) -> bool, less': (T, T) -> bool, x: T, s: seq<T>)
    requires forall y, z :: less(y, z) == less'(y, z)
    ensures Insert(less, x, s) == Insert(less', x, s)
  {
    if s != [] {
      InsertSame(less, less', x, s[1..]);
    }
  }

  lemma {:induction false} SortSame<T(!new)>(less: (T, T) -> bool, less': (T, T) -> bool, s: seq<T>)
    requires forall y, z :: less(y, z) == less'(y, z)
    ensures SortBy(less, s) == SortBy(less', s)
  {
    if s != [] {
      SortSame(less, less', s[1..]);
      InsertSame(less, less', s[0], SortBy(less, s[1..]));
    }
  }

  lemma {:induction false} JoinedSame(p: Domain -> seq<Question>, p': Domain -> seq<Question>, domains: seq<Domain>)
    requires forall d :: p(d) == p'(d)
    ensures Joined(p, domains) == Joined(p', domains)
  {
    if domains != [] {
      JoinedSame(p, p', domains[1..]);
    }
  }

  lemma {:induction false} ShortagesShuffled(a: seq<Question>, b: seq<Question>, quota: Domain -> nat, domains: seq<Domain>)
    requires Shuffled(a, b)
    ensures ShortagesIn(a, quota, domains) == ShortagesIn(b, quota, domains)
  {
    if domains != [] {
      ShortagesShuffled(a, b, quota, domains[1..]);
      ShuffledFilter(OfDomain(domains[0]), a, b);
    }
  }

  lemma PoolShuffled(a: seq<Question>, b: seq<Question>, d: Domain)
    requires Shuffled(a, b)
    ensures Pool(a, d) == [] <==> Pool(b, d) == []
    ensures forall q :: q in Pool(a, d) <==> q in Pool(b, d)
  {
    ShuffledFilter(OfDomain(d), a, b);
  }

  lemma OmitKeyShuffled(rank: Ranker, a: SelectionInput, b: SelectionInput, catalogue: seq<Domain>, o: Domain)
    requires Shuffled(a.eligible, b.eligible) && b == a.(eligible := b.eligible)
    ensures OmitKey(rank, a, catalogue)(o) == OmitKey(rank, b, catalogue)(o)
  {
    forall d ensures Unavailable(a.eligible, o)(d) == Unavailable(b.eligible, o)(d)
                     && Unavoidable(a.eligible, a.recent, o)(d) == Unavoidable(b.eligible, b.recent, o)(d) {
      PoolShuffled(a.eligible, b.eligible, d);
    }
    FilterSame(Unavailable(a.eligible, o), Unavailable(b.eligible, o), catalogue);
    FilterSame(Unavoidable(a.eligible, a.recent, o), Unavoidable(b.eligible, b.recent, o), catalogue);
  }

  lemma QuotaShuffled(rank: Ranker, a: SelectionInput, b: SelectionInput, catalogue: seq<Domain>)
    requires Shuffled(a.eligible, b.eligible) && b == a.(eligible := b.eligible) && catalogue != []
    ensures Quota(rank, a, catalogue) == Quota(rank, b, catalogue)
  {
    var less, less' := KeyOrder(OmitKey(rank, a, catalogue)), KeyOrder(OmitKey(rank, b, catalogue));
    forall x, y ensures less(x, y) == less'(x, y) {
      OmitKeyShuffled(rank, a, b, catalogue, x);
      OmitKeyShuffled(rank, a, b, catalogue, y);
    }
    SortSame(less, less', catalogue);
  }

  lemma ReservedShuffled(pick: Picker, a: seq<Question>, b: seq<Question>, quota: Domain -> nat, catalogue: seq<Domain>)
    requires Shuffled(a, b) && Blind(pick)
    ensures forall d :: Reserved(pick, a, quota)(d) == Reserved(pick, b, quota)(d)
    ensures Joined(Reserved(pick, a, quota), catalogue) == Joined(Reserved(pick, b, quota), catalogue)
  {
    forall d ensures Reserved(pick, a, quota)(d) == Reserved(pick, b, quota)(d) {
      ShuffledFilter(OfDomain(d), a, b);
      assert Shuffled(Pool(a, d), Pool(b, d));
    }
    JoinedSame(Reserved(pick, a, quota), Reserved(pick, b, quota), catalogue);
  }

  lemma LeftShuffled(a: seq<Question>, b: seq<Question>, reserved: seq<Question>)
    requires Shuffled(a, b)
    ensures Shuffled(Left(a, reserved), Left(b, reserved))
  {
    ShuffledFilter(NotAmong(reserved), a, b);
  }

  lemma QueuesSame(p: Domain -> seq<Question>, p': Domain -> seq<Question>, extra: seq<Question>, catalogue: seq<Domain>)
    requires forall d :: p(d) == p'(d)
    ensures QueuesOf(p, extra, catalogue) == QueuesOf(p', extra, catalogue)
  {
  }

  lemma ArrangedSame(a: SelectionInput, b: SelectionInput, p: Domain -> seq<Question>, p': Domain -> seq<Question>,
                     extra: seq<Question>, catalogue: seq<Domain>, choose: Chooser)
    requires Catalogue(catalogue) && Greedy(choose, catalogue) && b == a.(eligible := b.eligible)
    requires forall d :: p(d) == p'(d)
    ensures Arranged(a, p, extra, catalogue, choose) == Arranged(b, p', extra, catalogue, choose)
  {
    QueuesSame(p, p', extra, catalogue);
    JoinedSame(p, p', catalogue);
  }

  lemma ExtraShuffled(pick: Picker, a: SelectionInput, b: SelectionInput, reserved: seq<Question>)
    requires Blind(pick) && Shuffled(a.eligible, b.eligible) && b == a.(eligible := b.eligible)
    ensures Extra(pick, a, reserved) == Extra(pick, b, reserved)
  {
    LeftShuffled(a.eligible, b.eligible, reserved);
    assert Shuffled(Left(a.eligible, reserved), Left(b.eligible, reserved));
  }

  lemma SelectedShuffled(pick: Picker, a: SelectionInput, b: SelectionInput, catalogue: seq<Domain>, choose: Chooser, quota: Domain -> nat)
    requires Catalogue(catalogue) && Greedy(choose, catalogue) && Blind(pick)
    requires Shuffled(a.eligible, b.eligible) && b == a.(eligible := b.eligible)
    ensures Selected(pick, a, catalogue, choose, quota) == Selected(pick, b, catalogue, choose, quota)
  {
    var parts, parts' := Reserved(pick, a.eligible, quota), Reserved(pick, b.eligible, quota);
    var reserved := Joined(parts, catalogue);
    ShortagesShuffled(a.eligible, b.eligible, quota, catalogue);
    ReservedShuffled(pick, a.eligible, b.eligible, quota, catalogue);
    ExtraShuffled(pick, a, b, reserved);
    ArrangedSame(a, b, parts, parts', Extra(pick, a, reserved), catalogue, choose);
  }

  /** Order independence: permuting the eligible questions changes neither the returned blueprint nor the
      reported failure. */
  lemma SelectForgetsOrder(rank: Ranker, a: SelectionInput, b: SelectionInput, catalogue: seq<Domain>)
    requires Catalogue(catalogue) && DistinctIds(a.eligible)
    requires b == a.(eligible := b.eligible) && multiset(a.eligible) == multiset(b.eligible)
    ensures Select(rank, a, catalogue) == Select(rank, b, catalogue)
  {
    DistinctNoDup(a.eligible);
    NoDupPermuted(a.eligible, b.eligible);
    assert forall q :: q in a.eligible <==> q in ToSet(a.eligible);
    assert forall q :: q in b.eligible <==> q in ToSet(b.eligible);
    DistinctPart(a.eligible, b.eligible);
    FirstDuplicateNone(a.eligible, {});
    FirstDuplicateNone(b.eligible, {});
    SomeDomain(catalogue);
    SeededIsGreedy(rank, a.selectionSeed, catalogue);
    QuotaShuffled(rank, a, b, catalogue);
    SeededIsBlind(rank, a.selectionSeed, a.recent);
    SelectedShuffled(SeededPicker(rank, a.selectionSeed, a.recent), a, b, catalogue,
                     SeededChooser(rank, a.selectionSeed, catalogue), Quota(rank, a, catalogue));
  }
}
