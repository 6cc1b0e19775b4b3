/** Ranks, and the greedy interleaving of per-domain queues
    (packages/domain/src/blueprint-selection.ts, `interleaveSelectedQuestions`). */
module Interleave {
  import opened Basics
  import opened Sequences
  import opened TextOrder
  import opened InterviewModel
  import opened Coverage

  /** A part of the text a rank is computed from. */
  datatype Part = Text(text: string) | Number(number: int)

  /** What a rank is computed for; its text is part of the ranked text. */
  datatype Purpose = CandidateRank | FlexibleRank | OmittedRank | OrderRank

  function PurposeText(purpose: Purpose): string {
    match purpose
    case CandidateRank => "candidate"
    case FlexibleRank => "flexible-candidate"
    case OmittedRank => "omitted-domain"
    case OrderRank => "blueprint-order"
  }

  /** `stableRank`: some fixed function into the natural numbers. Every theorem holds for every ranker. */
  type Ranker = seq<Part> -> nat

  /** The queues still to be drained; a domain without an entry has an empty queue. */
  type Queues = map<Domain, seq<Question>>

  function QueueOf(queues: Queues, d: Domain): seq<Question> {
    if d in queues then queues[d] else []
  }

  /** How many questions the queues of the listed domains hold. */
  function Held(queues: Queues, domains: seq<Domain>): nat {
    if domains == [] then 0 else |QueueOf(queues, domains[0])| + Held(queues, domains[1..])
  }

  function HasMore(queues: Queues): Domain -> bool {
    (d: Domain) => QueueOf(queues, d) != []
  }

  /** The comparator of one turn: longest queue first, then by rank, then by name. */
  function TurnKey(rank: Ranker, seed: string, queues: Queues, position: nat): Domain -> Key {
    (d: Domain) => Key(-|QueueOf(queues, d)|,
                       rank([Text(seed), Text(PurposeText(OrderRank)), Number(position), Text(DomainName(d))]),
                       DomainName(d), 0)
  }

  function TurnOrder(rank: Ranker, seed: string, queues: Queues, position: nat): (Domain, Domain) -> bool {
    KeyOrder(TurnKey(rank, seed, queues, position))
  }

  /** The first of the sorted domains that is not the previous one, else simply the first. */
  function PickTurn(sorted: seq<Domain>, previous: Option<Domain>): (d: Domain)
    requires sorted != []
    ensures d in sorted
  {
    if previous != Some(sorted[0]) || |sorted| == 1 then sorted[0] else sorted[1]
  }

  /** A rule that names the domain of the next turn from the queues, the previous domain and the position. */
  type Chooser = (Queues, Option<Domain>, nat) -> Domain

  /** The rule of the source: sort the domains that have questions left and pick. */
  function Rule(rank: Ranker, seed: string, catalogue: seq<Domain>, queues: Queues, previous: Option<Domain>, position: nat): Domain {
    var sorted := SortBy(TurnOrder(rank, seed, queues, position), Filter(HasMore(queues), catalogue));
    if sorted == [] then GoLanguage else PickTurn(sorted, previous)
  }

  function SeededChooser(rank: Ranker, seed: string, catalogue: seq<Domain>): Chooser {
    (queues: Queues, previous: Option<Domain>, position: nat) => Rule(rank, seed, catalogue, queues, previous, position)
  }

  /** The rule names a domain with questions left; it repeats the previous domain only when no other has
      any, and otherwise takes a longest queue among the others. */
  ghost predicate GoodTurn(queues: Queues, catalogue: seq<Domain>, previous: Option<Domain>, d: Domain) {
    && d in catalogue
    && QueueOf(queues, d) != []
    && (previous == Some(d) ==> forall e :: e != d ==> QueueOf(queues, e) == [])
    && (previous != Some(d) ==> forall e :: previous != Some(e) ==> |QueueOf(queues, e)| <= |QueueOf(queues, d)|)
  }

  ghost predicate Greedy(choose: Chooser, catalogue: seq<Domain>) {
    forall queues, previous, position {:trigger GoodTurn(queues, catalogue, previous, choose(queues, previous, position))} ::
      Held(queues, catalogue) > 0 ==> GoodTurn(queues, catalogue, previous, choose(queues, previous, position))
  }

  /** The queues without the first question of one of them; a drained queue loses its entry. */
  function Pop(queues: Queues, d: Domain): Queues
    requires QueueOf(queues, d) != []
  {
    if |queues[d]| == 1 then queues - {d} else queues[d := queues[d][1..]]
  }

  lemma {:induction false} HeldPop(queues: Queues, d: Domain, domains: seq<Domain>)
    requires QueueOf(queues, d) != [] && NoDup(domains)
    ensures Held(Pop(queues, d), domains) == Held(queues, domains) - if d in domains then 1 else 0
  {
    if domains != [] {
      NoDupStep(domains);
      HeldPop(queues, d, domains[1..]);
    }
  }

  lemma {:induction false} HeldZero(queues: Queues, domains: seq<Domain>)
    ensures Held(queues, domains) == 0 <==> forall d :: d in domains ==> QueueOf(queues, d) == []
  {
    if domains != [] {
      HeldZero(queues, domains[1..]);
      assert domains == [domains[0]] + domains[1..];
    }
  }

  lemma {:induction false} HeldTwo(queues: Queues, d: Domain, e: Domain, domains: seq<Domain>)
    requires d != e && NoDup(domains)
    ensures Held(queues, domains) >= (if d in domains then |QueueOf(queues, d)| else 0) + (if e in domains then |QueueOf(queues, e)| else 0)
  {
    if domains != [] {
      NoDupStep(domains);
      HeldTwo(queues, d, e, domains[1..]);
    }
  }

  lemma {:induction false} HeldOne(queues: Queues, d: Domain, domains: seq<Domain>)
    requires NoDup(domains) && forall e :: e in domains && e != d ==> QueueOf(queues, e) == []
    ensures Held(queues, domains) == if d in domains then |QueueOf(queues, d)| else 0
  {
    if domains != [] {
      NoDupStep(domains);
      HeldOne(queues, d, domains[1..]);
    }
  }

  lemma SomeLeft(queues: Queues, catalogue: seq<Domain>)
    requires Held(queues, catalogue) > 0
    ensures exists d :: d in catalogue && HasMore(queues)(d)
  {
    HeldZero(queues, catalogue);
  }

  /** The interleaved order: one question per turn, until every queue is empty. */
  ghost function Interleaved(choose: Chooser, catalogue: seq<Domain>, queues: Queues, previous: Option<Domain>, done: nat): seq<Question>
    requires Catalogue(catalogue) && Greedy(choose, catalogue)
    decreases Held(queues, catalogue)
  {
    if Held(queues, catalogue) == 0 then []
    else
      var d := choose(queues, previous, done + 1);
      assert GoodTurn(queues, catalogue, previous, d);
      HeldPop(queues, d, catalogue);
      [queues[d][0]] + Interleaved(choose, catalogue, Pop(queues, d), Some(d), done + 1)
  }

  // ---------- the comparator is a strict total order ----------

  lemma DomainNamesDiffer(l: Domain, r: Domain)
    requires DomainName(l) == DomainName(r)
    ensures l == r
  {
    var a, b := DomainName(l), DomainName(r);
    assert a[0] == b[0] && a[1] == b[1] && |a| == |b|;
  }

  lemma TurnOrderTotal(rank: Ranker, seed: string, queues: Queues, position: nat, s: seq<Domain>)
    ensures StrictTotalOn(TurnOrder(rank, seed, queues, position), s)
  {
    var key := TurnKey(rank, seed, queues, position);
    forall x, y | key(x) == key(y) ensures x == y {
      DomainNamesDiffer(x, y);
    }
    KeyOrderTotal(key, s);
  }

  /** The source's rule is greedy: this is where the sort, the ranks and the names matter. */
  lemma SeededIsGreedy(rank: Ranker, seed: string, catalogue: seq<Domain>)
    requires Catalogue(catalogue)
    ensures Greedy(SeededChooser(rank, seed, catalogue), catalogue)
  {
    forall queues, previous, position | Held(queues, catalogue) > 0
      ensures GoodTurn(queues, catalogue, previous, SeededChooser(rank, seed, catalogue)(queues, previous, position))
    {
      SeededTurn(rank, seed, catalogue, queues, previous, position);
    }
  }

  lemma SeededTurn(rank: Ranker, seed: string, catalogue: seq<Domain>, queues: Queues, previous: Option<Domain>, position: nat)
    requires Catalogue(catalogue) && Held(queues, catalogue) > 0
    ensures GoodTurn(queues, catalogue, previous, Rule(rank, seed, catalogue, queues, previous, position))
  {
    var less := TurnOrder(rank, seed, queues, position);
    var available := Filter(HasMore(queues), catalogue);
    SomeLeft(queues, catalogue);
    FilterNoDup(HasMore(queues), catalogue);
    FilterMembers(HasMore(queues), catalogue);
    TurnOrderTotal(rank, seed, queues, position, available);
    SortedCopy(less, available);
    var sorted := SortBy(less, available);
    var d := PickTurn(sorted, previous);
    assert HasMore(queues)(d);
    forall e | QueueOf(queues, e) != [] && previous != Some(e)
      ensures previous != Some(d) && |QueueOf(queues, e)| <= |QueueOf(queues, d)|
    {
      assert HasMore(queues)(e);
      SortedFront(less, sorted, e);
    }
  }

  // ---------- permutation and queue order ----------

  /** Every queue holds questions of its own domain. */
  ghost predicate WellFiled(queues: Queues) {
    forall d, q :: q in QueueOf(queues, d) ==> q.domain == d
  }

  lemma FilterCons<T(!new)>(p: T -> bool, x: T, s: seq<T>)
    ensures Filter(p, [x] + s) == (if p(x) then [x] else []) + Filter(p, s)
  {
    assert ([x] + s)[1..] == s;
  }

  /** The output keeps each domain's queue order and drains every queue, so it is a permutation of all
      queued questions. */
  lemma {:induction false} InterleavedKeepsQueues(choose: Chooser, catalogue: seq<Domain>, queues: Queues, previous: Option<Domain>, done: nat, e: Domain)
    requires Catalogue(catalogue) && Greedy(choose, catalogue) && WellFiled(queues)
    ensures |Interleaved(choose, catalogue, queues, previous, done)| == Held(queues, catalogue)
    ensures Filter(OfDomain(e), Interleaved(choose, catalogue, queues, previous, done)) == QueueOf(queues, e)
    decreases Held(queues, catalogue)
  {
    if Held(queues, catalogue) == 0 {
      HeldZero(queues, catalogue);
      assert e in catalogue;
    } else {
      var d := choose(queues, previous, done + 1);
      assert GoodTurn(queues, catalogue, previous, d);
      HeldPop(queues, d, catalogue);
      PopFiled(queues, d);
      InterleavedKeepsQueues(choose, catalogue, Pop(queues, d), Some(d), done + 1, e);
      FilterCons(OfDomain(e), queues[d][0], Interleaved(choose, catalogue, Pop(queues, d), Some(d), done + 1));
      assert queues[d] == [queues[d][0]] + queues[d][1..];
    }
  }

  lemma PopFiled(queues: Queues, d: Domain)
    requires WellFiled(queues) && QueueOf(queues, d) != []
    ensures WellFiled(Pop(queues, d)) && QueueOf(queues, d)[0].domain == d
    ensures forall e :: QueueOf(Pop(queues, d), e) == if e == d then QueueOf(queues, d)[1..] else QueueOf(queues, e)
  {
    assert QueueOf(queues, d)[0] in QueueOf(queues, d);
    forall e, q | q in QueueOf(Pop(queues, d), e) ensures q.domain == e {
      assert q in QueueOf(queues, e);
    }
  }

  // ---------- no two neighbours from one domain ----------

  /** No two consecutive questions are of the same domain. */
  predicate NoNeighbours(questions: seq<Question>) {
    |questions| < 2 || (questions[0].domain != questions[1].domain && NoNeighbours(questions[1..]))
  }

  lemma {:induction false} NoNeighboursAt(questions: seq<Question>, i: nat)
    requires NoNeighbours(questions) && i + 1 < |questions|
    ensures questions[i].domain != questions[i + 1].domain
  {
    if i > 0 {
      NoNeighboursAt(questions[1..], i - 1);
    }
  }

  /** No queue holds more than half (rounded up) of what is left, and the one just used at most half. */
  ghost predicate Balanced(queues: Queues, catalogue: seq<Domain>, previous: Option<Domain>) {
    && (forall d :: 2 * |QueueOf(queues, d)| <= Held(queues, catalogue) + 1)
    && (previous.Some? ==> 2 * |QueueOf(queues, previous.value)| <= Held(queues, catalogue))
  }

  lemma BalanceKept(queues: Queues, catalogue: seq<Domain>, previous: Option<Domain>, d: Domain)
    requires Catalogue(catalogue) && Balanced(queues, catalogue, previous)
    requires GoodTurn(queues, catalogue, previous, d)
    ensures previous != Some(d) && Balanced(Pop(queues, d), catalogue, Some(d))
  {
    HeldPop(queues, d, catalogue);
    if previous == Some(d) {
      HeldOne(queues, d, catalogue);
    }
    forall e ensures 2 * |QueueOf(Pop(queues, d), e)| <= Held(queues, catalogue) {
      if e != d {
        HeldTwo(queues, d, e, catalogue);
      }
    }
  }

  lemma {:induction false} BalancedAlternates(choose: Chooser, catalogue: seq<Domain>, queues: Queues, previous: Option<Domain>, done: nat)
    requires Catalogue(catalogue) && Greedy(choose, catalogue) && WellFiled(queues) && Balanced(queues, catalogue, previous)
    ensures var r := Interleaved(choose, catalogue, queues, previous, done);
            NoNeighbours(r) && (r != [] ==> previous != Some(r[0].domain))
    decreases Held(queues, catalogue)
  {
    if Held(queues, catalogue) > 0 {
      var d := choose(queues, previous, done + 1);
      assert GoodTurn(queues, catalogue, previous, d);
      HeldPop(queues, d, catalogue);
      BalanceKept(queues, catalogue, previous, d);
      PopFiled(queues, d);
      BalancedAlternates(choose, catalogue, Pop(queues, d), Some(d), done + 1);
    }
  }

  /** A sequence without neighbours of one domain gives no domain more than half, rounded up. */
  lemma {:induction false} NoNeighboursBounds(questions: seq<Question>, d: Domain)
    requires NoNeighbours(questions)
    ensures 2 * CountIn(d, questions) <= |questions| + 1
    ensures questions != [] && questions[0].domain != d ==> 2 * CountIn(d, questions) <= |questions|
  {
    if questions != [] {
      assert NoNeighbours(questions[1..]);
      NoNeighboursBounds(questions[1..], d);
    }
  }

  /** The greedy interleaving avoids neighbours from one domain exactly when no domain holds more than
      half (rounded up) of the questions. */
  lemma AlternatesIffBalanced(choose: Chooser, catalogue: seq<Domain>, queues: Queues)
    requires Catalogue(catalogue) && Greedy(choose, catalogue) && WellFiled(queues)
    ensures NoNeighbours(Interleaved(choose, catalogue, queues, None, 0))
            <==> forall d :: 2 * |QueueOf(queues, d)| <= Held(queues, catalogue) + 1
  {
    var r := Interleaved(choose, catalogue, queues, None, 0);
    if forall d :: 2 * |QueueOf(queues, d)| <= Held(queues, catalogue) + 1 {
      BalancedAlternates(choose, catalogue, queues, None, 0);
    }
    if NoNeighbours(r) {
      forall d ensures 2 * |QueueOf(queues, d)| <= Held(queues, catalogue) + 1 {
        InterleavedKeepsQueues(choose, catalogue, queues, None, 0, d);
        NoNeighboursBounds(r, d);
      }
    }
  }

  /** It is best possible: if any arrangement of the same questions has no such neighbours, it has none. */
  lemma AlternatesIfPossible(choose: Chooser, catalogue: seq<Domain>, queues: Queues, other: seq<Question>)
    requires Catalogue(catalogue) && Greedy(choose, catalogue) && WellFiled(queues)
    requires multiset(other) == multiset(Interleaved(choose, catalogue, queues, None, 0)) && NoNeighbours(other)
    ensures NoNeighbours(Interleaved(choose, catalogue, queues, None, 0))
  {
    var r := Interleaved(choose, catalogue, queues, None, 0);
    forall d ensures 2 * |QueueOf(queues, d)| <= Held(queues, catalogue) + 1 {
      InterleavedKeepsQueues(choose, catalogue, queues, None, 0, d);
      NoNeighboursBounds(other, d);
      FilterPermuted(OfDomain(d), other, r);
      assert |multiset(Filter(OfDomain(d), other))| == CountIn(d, other);
      assert |multiset(Filter(OfDomain(d), r))| == |QueueOf(queues, d)|;
      assert |multiset(other)| == |other| && |multiset(r)| == |r|;
    }
    AlternatesIffBalanced(choose, catalogue, queues);
  }

  // ---------- the loop over ordered maps ----------

  /** A `Map` of the source: a table together with its insertion order. */
  datatype OrderedQueues = OrderedQueues(order: seq<Domain>, table: Queues) {
    ghost predicate Valid() {
      NoDup(order) && ToSet(order) == table.Keys
    }

    /** No stored queue is empty. */
    ghost predicate Full() {
      forall d :: d in table ==> table[d] != []
    }

    function Set(d: Domain, queue: seq<Question>): OrderedQueues {
      OrderedQueues(if d in table then order else order + [d], table[d := queue])
    }

    function Delete(d: Domain): OrderedQueues {
      OrderedQueues(Filter(Other(d), order), table - {d})
    }
  }

  function Other(d: Domain): Domain -> bool {
    (e: Domain) => e != d
  }

  lemma DeleteValid(queues: OrderedQueues, d: Domain)
    requires queues.Valid()
    ensures queues.Delete(d).Valid()
  {
    FilterNoDup(Other(d), queues.order);
    FilterMembers(Other(d), queues.order);
    var after := queues.Delete(d);
    forall e ensures e in ToSet(after.order) <==> e in after.table.Keys {
      assert e in queues.order <==> e in ToSet(queues.order);
    }
  }

  /** The insertion order of the map never shows: sorting its keys is sorting the catalogue's. */
  lemma KeysSortAlike(rank: Ranker, seed: string, catalogue: seq<Domain>, queues: OrderedQueues, position: nat)
    requires Catalogue(catalogue) && queues.Valid() && queues.Full()
    ensures SortBy(TurnOrder(rank, seed, queues.table, position), queues.order)
            == SortBy(TurnOrder(rank, seed, queues.table, position), Filter(HasMore(queues.table), catalogue))
  {
    var available := Filter(HasMore(queues.table), catalogue);
    FilterNoDup(HasMore(queues.table), catalogue);
    FilterMembers(HasMore(queues.table), catalogue);
    forall d ensures d in available <==> d in queues.order {
      assert d in queues.table <==> HasMore(queues.table)(d);
      assert d in ToSet(queues.order) <==> d in queues.order;
    }
    TurnOrderTotal(rank, seed, queues.table, position, queues.order);
    SortForgetsOrder(TurnOrder(rank, seed, queues.table, position), queues.order, available);
  }

  /** One turn over the ordered map is the turn of the rule. */
  lemma TurnAlike(rank: Ranker, seed: string, catalogue: seq<Domain>, queues: OrderedQueues, previous: Option<Domain>, position: nat)
    requires Catalogue(catalogue) && queues.Valid() && queues.order != []
    requires queues.Full()
    ensures Held(queues.table, catalogue) > 0
    ensures PickTurn(SortBy(TurnOrder(rank, seed, queues.table, position), queues.order), previous)
            == Rule(rank, seed, catalogue, queues.table, previous, position)
  {
    assert queues.order[0] in ToSet(queues.order);
    assert HasMore(queues.table)(queues.order[0]);
    HeldZero(queues.table, catalogue);
    KeysSortAlike(rank, seed, catalogue, queues, position);
  }

  lemma Advance(queues: OrderedQueues, catalogue: seq<Domain>, d: Domain)
    requires Catalogue(catalogue) && queues.Valid() && d in queues.table && queues.table[d] != []
    ensures var queue := queues.table[d];
            var after := if |queue| == 1 then queues.Delete(d) else queues.Set(d, queue[1..]);
            && after.Valid()
            && after.table == Pop(queues.table, d)
            && Held(after.table, catalogue) < Held(queues.table, catalogue)
            && (after.Full() <==> queues.Full())
  {
    DeleteValid(queues, d);
    HeldPop(queues.table, d, catalogue);
    assert forall e :: e != d ==> (e in Pop(queues.table, d) <==> e in queues.table);
  }

  lemma Drained(queues: OrderedQueues, catalogue: seq<Domain>)
    requires queues.Valid() && queues.order == []
    ensures queues.Full() && Held(queues.table, catalogue) == 0
  {
    assert forall d :: d in queues.table ==> d in ToSet(queues.order);
    HeldZero(queues.table, catalogue);
  }

  lemma OneTurn(choose: Chooser, catalogue: seq<Domain>, queues: Queues, previous: Option<Domain>, output: seq<Question>, d: Domain)
    requires Catalogue(catalogue) && Greedy(choose, catalogue) && Held(queues, catalogue) > 0
    requires d == choose(queues, previous, |output| + 1) && d in queues && queues[d] != []
    ensures output + Interleaved(choose, catalogue, queues, previous, |output|)
            == (output + [queues[d][0]]) + Interleaved(choose, catalogue, Pop(queues, d), Some(d), |output| + 1)
  {
  }

  /** One turn of the loop: sort the keys of the map and pick. */
  method TakeTurn(rank: Ranker, seed: string, queues: OrderedQueues, previous: Option<Domain>, position: nat, ghost catalogue: seq<Domain>)
    returns (domain: Domain)
    requires queues.Valid() && queues.order != [] && Catalogue(catalogue)
    ensures domain in queues.table
    ensures queues.Full() ==>
              && Held(queues.table, catalogue) > 0
              && domain == Rule(rank, seed, catalogue, queues.table, previous, position)
  {
    var less := TurnOrder(rank, seed, queues.table, position);
    var available := SortBy(less, queues.order);
    SortKeeps(less, queues.order);
    domain := PickTurn(available, previous);
    assert domain in multiset(available) && domain in ToSet(queues.order);
    if queues.Full() {
      TurnAlike(rank, seed, catalogue, queues, previous, position);
    }
  }

  ghost predicate Follows(choose: Chooser, rank: Ranker, seed: string, catalogue: seq<Domain>) {
    forall queues, previous, position {:trigger Rule(rank, seed, catalogue, queues, previous, position)} ::
      choose(queues, previous, position) == Rule(rank, seed, catalogue, queues, previous, position)
  }

  /** Greedy interleaving over a map of queues, whatever the insertion order of the map. It fails exactly
      when some stored queue is empty, and otherwise returns the specified order. */
  method InterleaveSelected(rank: Ranker, seed: string, selected: OrderedQueues, ghost catalogue: seq<Domain>, ghost choose: Chooser)
    returns (ordered: Option<seq<Question>>)
    requires selected.Valid() && Catalogue(catalogue)
    requires Greedy(choose, catalogue) && Follows(choose, rank, seed, catalogue)
    ensures ordered.Some? <==> selected.Full()
    ensures ordered.Some? ==> ordered.value == Interleaved(choose, catalogue, selected.table, None, 0)
  {
    var queues := selected;
    var output: seq<Question> := [];
    var previous: Option<Domain> := None;
    ghost var full := selected.Full();
    ghost var whole := Interleaved(choose, catalogue, selected.table, None, 0);
    while queues.order != []
      invariant queues.Valid()
      invariant full <==> queues.Full()
      invariant full ==> output + Interleaved(choose, catalogue, queues.table, previous, |output|) == whole
      decreases Held(queues.table, catalogue)
    {
      var domain := TakeTurn(rank, seed, queues, previous, |output| + 1, catalogue);
      var queue := queues.table[domain];
      if |queue| == 0 {
        return None;
      }
      Advance(queues, catalogue, domain);
      if full {
        OneTurn(choose, catalogue, queues.table, previous, output, domain);
      }
      queues := if |queue| == 1 then queues.Delete(domain) else queues.Set(domain, queue[1..]);
      output, previous := output + [queue[0]], Some(domain);
    }
    Drained(queues, catalogue);
    return Some(output);
  }
}
