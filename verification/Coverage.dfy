/** Domain coverage of a blueprint (packages/domain/src/blueprint-coverage.ts). */
module Coverage {
  import opened Basics
  import opened Sequences
  import opened InterviewModel

  function OfDomain(domain: Domain): Question -> bool {
    (q: Question) => q.domain == domain
  }

  function CountIn(domain: Domain, questions: seq<Question>): nat {
    |Filter(OfDomain(domain), questions)|
  }

  function Minimum(count: int, domain: Domain): nat {
    if count == 15 then 2
    else if domain == GoLanguage || domain == ConcurrencyRuntimePerformance then 2
    else 1
  }

  /** What coverage means: five questions from five different domains, or every domain at its minimum. */
  ghost predicate Covers(count: int, questions: seq<Question>) {
    && |questions| == count
    && (count == 5 ==> forall d :: CountIn(d, questions) <= 1)
    && (count != 5 ==> forall d :: CountIn(d, questions) >= Minimum(count, d))
  }

  datatype CoverageFault =
    | WrongTotal
    | MissingDomains(missing: nat)
    | UnassessedMismatch
    | WrongDomainCount(domain: Domain)
    | UnexpectedUnassessed
    | BelowMinimum(domain: Domain)

  function Uncovered(questions: seq<Question>): Domain -> bool {
    (d: Domain) => CountIn(d, questions) == 0
  }

  /** The single domain of the list without a question; with all domains, `deriveUnassessedDomain`. */
  function MissingFrom(questions: seq<Question>, domains: seq<Domain>): Result<Option<Domain>, CoverageFault> {
    var missing := Filter(Uncovered(questions), domains);
    if |missing| != 1 then Err(MissingDomains(|missing|)) else Ok(Some(missing[0]))
  }

  function DerivedOver(questions: seq<Question>, count: int, domains: seq<Domain>): Result<Option<Domain>, CoverageFault> {
    if count != 5 then Ok(None) else MissingFrom(questions, domains)
  }

  function DeriveUnassessed(questions: seq<Question>, count: int): Result<Option<Domain>, CoverageFault> {
    DerivedOver(questions, count, DOMAINS)
  }

  /** The first domain of the list whose count is not the wanted one. */
  function FirstOff(questions: seq<Question>, wanted: (Domain, nat) -> bool, domains: seq<Domain>): Option<Domain> {
    if domains == [] then None
    else if !wanted(domains[0], CountIn(domains[0], questions)) then Some(domains[0])
    else FirstOff(questions, wanted, domains[1..])
  }

  function OneUnless(omitted: Option<Domain>): (Domain, nat) -> bool {
    (d: Domain, n: nat) => n == if omitted == Some(d) then 0 else 1
  }

  function AtLeastMinimum(count: int): (Domain, nat) -> bool {
    (d: Domain, n: nat) => n >= Minimum(count, d)
  }

  /** The verdict of the validator over a catalogue of domains: `None` accepts. */
  function ProblemOver(count: int, questions: seq<Question>, unassessed: Option<Domain>, domains: seq<Domain>): Option<CoverageFault> {
    if |questions| != count then Some(WrongTotal)
    else if count == 5 then
      match MissingFrom(questions, domains)
      case Err(fault) => Some(fault)
      case Ok(expected) =>
        if unassessed != expected then Some(UnassessedMismatch)
        else
          match FirstOff(questions, OneUnless(expected), domains)
          case None => None
          case Some(domain) => Some(WrongDomainCount(domain))
    else if unassessed.Some? then Some(UnexpectedUnassessed)
    else
      match FirstOff(questions, AtLeastMinimum(count), domains)
      case None => None
      case Some(domain) => Some(BelowMinimum(domain))
  }

  function CoverageProblem(count: int, questions: seq<Question>, unassessed: Option<Domain>): Option<CoverageFault> {
    ProblemOver(count, questions, unassessed, DOMAINS)
  }

  /** The per-domain tally of the validator. */
  method CountDomains(questions: seq<Question>) returns (counts: map<Domain, nat>)
    ensures forall d :: d in counts && counts[d] == CountIn(d, questions)
  {
    forall d ensures d in DOMAINS { EveryDomain(d); }
    counts := map d | d in DOMAINS :: 0;
    for k := 0 to |questions|
      invariant forall d :: d in counts && counts[d] == CountIn(d, questions[..k])
    {
      assert questions[..k + 1] == questions[..k] + [questions[k]];
      forall d ensures CountIn(d, questions[..k + 1]) == CountIn(d, questions[..k]) + if questions[k].domain == d then 1 else 0 {
        FilterAppend(OfDomain(d), questions[..k], [questions[k]]);
      }
      counts := counts[questions[k].domain := counts[questions[k].domain] + 1];
    }
    assert questions[..|questions|] == questions;
  }

  /** The scan over the tally, in catalogue order, for the first domain with an unwanted count. */
  method ScanDomains(questions: seq<Question>, counts: map<Domain, nat>, wanted: (Domain, nat) -> bool, domains: seq<Domain>)
    returns (off: Option<Domain>)
    requires forall d :: d in counts && counts[d] == CountIn(d, questions)
    ensures off == FirstOff(questions, wanted, domains)
  {
    for k := 0 to |domains|
      invariant FirstOff(questions, wanted, domains[k..]) == FirstOff(questions, wanted, domains)
    {
      if !wanted(domains[k], counts[domains[k]]) {
        return Some(domains[k]);
      }
    }
    return None;
  }

  /** The counting validator of the source, proved against the verdict above. */
  method ValidateCoverage(count: int, questions: seq<Question>, unassessed: Option<Domain>)
    returns (r: Option<CoverageFault>)
    ensures r == CoverageProblem(count, questions, unassessed)
  {
    if |questions| != count {
      return Some(WrongTotal);
    }
    var counts := CountDomains(questions);
    if count == 5 {
      var expected := DeriveUnassessed(questions, count);
      if expected.Err? {
        return Some(expected.error);
      }
      if unassessed != expected.value {
        return Some(UnassessedMismatch);
      }
      var off := ScanDomains(questions, counts, OneUnless(expected.value), DOMAINS);
      return if off.None? then None else Some(WrongDomainCount(off.value));
    }
    if unassessed.Some? {
      return Some(UnexpectedUnassessed);
    }
    var off := ScanDomains(questions, counts, AtLeastMinimum(count), DOMAINS);
    return if off.None? then None else Some(BelowMinimum(off.value));
  }

  lemma EveryDomain(d: Domain)
    ensures d in DOMAINS
  {
    match d {
      case GoLanguage => assert DOMAINS[0] == d;
      case ConcurrencyRuntimePerformance => assert DOMAINS[1] == d;
      case HttpRpcApi => assert DOMAINS[2] == d;
      case DatabaseStorage => assert DOMAINS[3] == d;
      case CacheMessagingDistributed => assert DOMAINS[4] == d;
      case TestingObservabilityEngineering => assert DOMAINS[5] == d;
    }
  }

  /** The sum of a per-domain number over the six domains. */
  function SixSum(f: Domain -> int): int {
    f(GoLanguage) + f(ConcurrencyRuntimePerformance) + f(HttpRpcApi)
    + f(DatabaseStorage) + f(CacheMessagingDistributed) + f(TestingObservabilityEngineering)
  }

  function CountsOf(questions: seq<Question>): Domain -> int {
    (d: Domain) => CountIn(d, questions)
  }

  lemma {:induction false} CountsAddUp(questions: seq<Question>)
    ensures SixSum(CountsOf(questions)) == |questions|
  {
    if questions != [] {
      CountsAddUp(questions[1..]);
      forall d ensures CountIn(d, questions) == CountIn(d, questions[1..]) + if questions[0].domain == d then 1 else 0 {
      }
    }
  }

  lemma {:induction false} FirstOffNone(questions: seq<Question>, wanted: (Domain, nat) -> bool, domains: seq<Domain>)
    ensures FirstOff(questions, wanted, domains) == None <==> forall d :: d in domains ==> wanted(d, CountIn(d, questions))
  {
    if domains != [] {
      FirstOffNone(questions, wanted, domains[1..]);
      assert domains == [domains[0]] + domains[1..];
    }
  }

  /** Five questions over six domains, at most one each: exactly one domain is left out. */
  lemma OneMissing(questions: seq<Question>) returns (d: Domain)
    requires Covers(5, questions)
    ensures forall e :: CountIn(e, questions) == if e == d then 0 else 1
  {
    CountsAddUp(questions);
    assert forall e :: CountsOf(questions)(e) == CountIn(e, questions);
    d := if CountIn(GoLanguage, questions) == 0 then GoLanguage
         else if CountIn(ConcurrencyRuntimePerformance, questions) == 0 then ConcurrencyRuntimePerformance
         else if CountIn(HttpRpcApi, questions) == 0 then HttpRpcApi
         else if CountIn(DatabaseStorage, questions) == 0 then DatabaseStorage
         else if CountIn(CacheMessagingDistributed, questions) == 0 then CacheMessagingDistributed
         else TestingObservabilityEngineering;
    forall e ensures CountIn(e, questions) == if e == d then 0 else 1 {
      match e { case _ => }
    }
  }

  ghost predicate Catalogue(domains: seq<Domain>) {
    NoDup(domains) && forall d :: d in domains
  }

  lemma TheCatalogue()
    ensures Catalogue(DOMAINS)
  {
    forall d ensures d in DOMAINS { EveryDomain(d); }
  }

  /** The declared unassessed domain is the one without a question, and none is declared beyond five. */
  ghost predicate RightlyUnassessed(count: int, questions: seq<Question>, unassessed: Option<Domain>) {
    match unassessed
    case None => count != 5
    case Some(d) => count == 5 && CountIn(d, questions) == 0
  }

  lemma FiveVerdict(questions: seq<Question>, domains: seq<Domain>) returns (d: Domain)
    requires Covers(5, questions) && Catalogue(domains)
    ensures forall e :: CountIn(e, questions) == 0 <==> e == d
    ensures MissingFrom(questions, domains) == Ok(Some(d))
    ensures FirstOff(questions, OneUnless(Some(d)), domains) == None
  {
    d := OneMissing(questions);
    var p := Uncovered(questions);
    FilterNoDup(p, domains);
    FilterMembers(p, domains);
    assert forall e :: p(e) <==> e == d;
    OnlyElement(Filter(p, domains), d);
    FirstOffNone(questions, OneUnless(Some(d)), domains);
  }

  lemma AcceptedFive(questions: seq<Question>, domains: seq<Domain>, unassessed: Option<Domain>)
    requires |questions| == 5 && Catalogue(domains)
    requires FirstOff(questions, OneUnless(unassessed), domains) == None
    ensures Covers(5, questions)
  {
    FirstOffNone(questions, OneUnless(unassessed), domains);
    forall d ensures CountIn(d, questions) <= 1 {
      assert OneUnless(unassessed)(d, CountIn(d, questions));
    }
  }

  lemma VerdictOver(count: int, questions: seq<Question>, unassessed: Option<Domain>, domains: seq<Domain>)
    requires SupportedCount(count) && Catalogue(domains)
    ensures ProblemOver(count, questions, unassessed, domains) == None
            <==> Covers(count, questions) && RightlyUnassessed(count, questions, unassessed)
    ensures count == 5 && Covers(count, questions)
            ==> MissingFrom(questions, domains).Ok? && RightlyUnassessed(count, questions, MissingFrom(questions, domains).value)
  {
    if count == 5 {
      if Covers(5, questions) {
        var d := FiveVerdict(questions, domains);
      }
      if ProblemOver(5, questions, unassessed, domains) == None {
        AcceptedFive(questions, domains, unassessed);
      }
    } else {
      FirstOffNone(questions, AtLeastMinimum(count), domains);
    }
  }

  /** The validator accepts exactly the covering question lists with the right domain declared unassessed. */
  lemma ValidatorIsCoverage(count: int, questions: seq<Question>, unassessed: Option<Domain>)
    requires SupportedCount(count)
    ensures CoverageProblem(count, questions, unassessed) == None
            <==> Covers(count, questions) && RightlyUnassessed(count, questions, unassessed)
  {
    TheCatalogue();
    VerdictOver(count, questions, unassessed, DOMAINS);
  }

  /** For covering questions the derived domain exists and is the right one. */
  lemma DerivedIsRight(count: int, questions: seq<Question>)
    requires SupportedCount(count) && Covers(count, questions)
    ensures DeriveUnassessed(questions, count).Ok?
    ensures RightlyUnassessed(count, questions, DeriveUnassessed(questions, count).value)
  {
    TheCatalogue();
    VerdictOver(count, questions, None, DOMAINS);
  }

  /** No covered selection gives any domain more than half (rounded up) of the questions. */
  lemma NoMajority(count: int, questions: seq<Question>, d: Domain)
    requires SupportedCount(count) && Covers(count, questions)
    ensures 2 * CountIn(d, questions) <= count + 1
  {
    CountsAddUp(questions);
    assert forall e :: CountsOf(questions)(e) == CountIn(e, questions);
    match d { case _ => }
  }
}
