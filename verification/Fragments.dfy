/** The detector of private text spread over several output fields
    (apps/server/src/private-assessment-content.ts). Texts are lists of normalized characters. */
module Fragments {
  import opened Sequences

  // ---------- what the detector is for ----------

  /** `n` characters of `c` from `i` stand in `v` from `j`. */
  predicate MatchAt(c: string, i: nat, v: string, j: nat, n: nat) {
    i + n <= |c| && j + n <= |v| && c[i..i + n] == v[j..j + n]
  }

  /** `n` characters of `c` from `i` stand somewhere in `v`. */
  predicate Occurs(c: string, i: nat, n: nat, v: string) {
    exists j :: 0 <= j <= |v| && MatchAt(c, i, v, j, n)
  }

  /** A non-empty piece of `c` between two cuts stands in `v`. */
  ghost predicate Fragment(c: string, from: nat, to: nat, v: string) {
    from < to <= |c| && Occurs(c, from, to - from, v)
  }

  /** The piece between two cuts is not empty and stands in its field. */
  ghost predicate Piece(c: string, values: seq<string>, from: nat, to: nat, pick: nat) {
    pick < |values| && Fragment(c, from, to, values[pick])
  }

  /** The first `length` characters of `c`, cut at `cuts`, come from the fields `picks`, in field order. */
  ghost predicate SplitAt(c: string, values: seq<string>, length: nat, cuts: seq<nat>, picks: seq<nat>) {
    && |cuts| == |picks| + 1 && cuts[0] == 0 && cuts[|picks|] == length
    && (forall t {:trigger picks[t]} :: 0 <= t < |picks| ==> Piece(c, values, cuts[t], cuts[t + 1], picks[t]))
    && (forall t, u :: 0 <= t < u < |picks| ==> picks[t] < picks[u])
  }

  /** The candidate is spread over at least two fields. */
  ghost predicate Reconstructible(c: string, values: seq<string>) {
    exists cuts: seq<nat>, picks: seq<nat> {:trigger SplitAt(c, values, |c|, cuts, picks)} :: |picks| >= 2 && SplitAt(c, values, |c|, cuts, picks)
  }

  // ---------- the same by recursion over the fields ----------

  ghost predicate Splits(c: string, values: seq<string>, length: nat, fields: nat) {
    if values == [] then length == 0 && fields == 0
    else
      || Splits(c, values[..|values| - 1], length, fields)
      || (exists start {:trigger Fragment(c, start, length, values[|values| - 1])} ::
            fields > 0 && Fragment(c, start, length, values[|values| - 1]) && Splits(c, values[..|values| - 1], start, fields - 1))
  }

  lemma {:induction false} SplitsBounds(c: string, values: seq<string>, length: nat, fields: nat)
    requires Splits(c, values, length, fields)
    ensures fields <= length <= |c| && fields <= |values|
  {
    if values != [] {
      var front, v := values[..|values| - 1], values[|values| - 1];
      if Splits(c, front, length, fields) {
        SplitsBounds(c, front, length, fields);
      } else {
        var start :| Fragment(c, start, length, v) && Splits(c, front, start, fields - 1);
        SplitsBounds(c, front, start, fields - 1);
      }
    }
  }

  lemma SplitsSnoc(c: string, front: seq<string>, v: string, length: nat, fields: nat)
    ensures Splits(c, front + [v], length, fields) <==>
              || Splits(c, front, length, fields)
              || (exists start {:trigger Fragment(c, start, length, v)} ::
                    fields > 0 && Fragment(c, start, length, v) && Splits(c, front, start, fields - 1))
  {
    assert (front + [v])[..|front|] == front && (front + [v])[|front|] == v;
  }

  lemma PieceGrows(c: string, front: seq<string>, v: string, from: nat, to: nat, pick: nat)
    ensures pick < |front| ==> (Piece(c, front, from, to, pick) <==> Piece(c, front + [v], from, to, pick))
    ensures Piece(c, front + [v], from, to, |front|) <==> Fragment(c, from, to, v)
  {
  }

  /** A split over fewer fields is a split over more. */
  lemma SplitGrows(c: string, front: seq<string>, v: string, length: nat, cuts: seq<nat>, picks: seq<nat>)
    requires SplitAt(c, front, length, cuts, picks)
    ensures SplitAt(c, front + [v], length, cuts, picks)
  {
    forall t | 0 <= t < |picks| ensures Piece(c, front + [v], cuts[t], cuts[t + 1], picks[t]) {
      PieceGrows(c, front, v, cuts[t], cuts[t + 1], picks[t]);
    }
  }

  lemma SplitExtends(c: string, front: seq<string>, v: string, start: nat, length: nat, cuts: seq<nat>, picks: seq<nat>)
    requires SplitAt(c, front, start, cuts, picks) && Fragment(c, start, length, v)
    ensures SplitAt(c, front + [v], length, cuts + [length], picks + [|front|])
  {
    var cuts', picks' := cuts + [length], picks + [|front|];
    forall t | 0 <= t < |picks'| ensures Piece(c, front + [v], cuts'[t], cuts'[t + 1], picks'[t]) {
      PieceGrows(c, front, v, cuts'[t], cuts'[t + 1], picks'[t]);
      if t < |picks| {
        assert Piece(c, front, cuts[t], cuts[t + 1], picks[t]);
      }
    }
    forall t, u | 0 <= t < u < |picks'| ensures picks'[t] < picks'[u] {
      assert Piece(c, front, cuts[t], cuts[t + 1], picks[t]);
    }
  }

  lemma {:induction false} SplitsGivesCuts(c: string, values: seq<string>, length: nat, fields: nat) returns (cuts: seq<nat>, picks: seq<nat>)
    requires Splits(c, values, length, fields)
    ensures SplitAt(c, values, length, cuts, picks) && |picks| == fields
  {
    if values == [] {
      return [0], [];
    }
    var front, v := values[..|values| - 1], values[|values| - 1];
    assert values == front + [v];
    if Splits(c, front, length, fields) {
      cuts, picks := SplitsGivesCuts(c, front, length, fields);
      SplitGrows(c, front, v, length, cuts, picks);
    } else {
      var start :| Fragment(c, start, length, v) && Splits(c, front, start, fields - 1);
      cuts, picks := SplitsGivesCuts(c, front, start, fields - 1);
      SplitExtends(c, front, v, start, length, cuts, picks);
      cuts, picks := cuts + [length], picks + [|front|];
    }
  }

  lemma SplitShrinks(c: string, front: seq<string>, v: string, length: nat, cuts: seq<nat>, picks: seq<nat>, kept: nat)
    requires SplitAt(c, front + [v], length, cuts, picks) && kept <= |picks|
    requires forall t :: 0 <= t < kept ==> picks[t] < |front|
    ensures SplitAt(c, front, cuts[kept], cuts[..kept + 1], picks[..kept])
  {
    var cuts', picks' := cuts[..kept + 1], picks[..kept];
    forall t | 0 <= t < |picks'| ensures Piece(c, front, cuts'[t], cuts'[t + 1], picks'[t]) {
      assert Piece(c, front + [v], cuts[t], cuts[t + 1], picks[t]);
      PieceGrows(c, front, v, cuts[t], cuts[t + 1], picks[t]);
    }
  }

  lemma {:induction false} CutsGiveSplits(c: string, values: seq<string>, length: nat, cuts: seq<nat>, picks: seq<nat>)
    requires SplitAt(c, values, length, cuts, picks)
    ensures Splits(c, values, length, |picks|)
    decreases |values|
  {
    var n := |picks|;
    if n > 0 {
      assert Piece(c, values, cuts[n - 1], cuts[n], picks[n - 1]);
    }
    if values != [] {
      var front, v := values[..|values| - 1], values[|values| - 1];
      assert values == front + [v];
      var last := n > 0 && picks[n - 1] == |front|;
      var kept := if last then n - 1 else n;
      forall t | 0 <= t < kept ensures picks[t] < |front| {
        assert Piece(c, values, cuts[t], cuts[t + 1], picks[t]);
      }
      SplitShrinks(c, front, v, length, cuts, picks, kept);
      CutsGiveSplits(c, front, cuts[kept], cuts[..kept + 1], picks[..kept]);
      SplitsSnoc(c, front, v, length, n);
    }
  }

  lemma EnoughPieces(c: string, values: seq<string>, fields: nat)
    requires fields >= 2 && Splits(c, values, |c|, fields)
    ensures Reconstructible(c, values)
  {
    var cuts, picks := SplitsGivesCuts(c, values, |c|, fields);
    assert SplitAt(c, values, |c|, cuts, picks) && |picks| >= 2;
  }

  /** The recursion says the same as the cuts. */
  lemma ReconstructibleBySplits(c: string, values: seq<string>)
    ensures Reconstructible(c, values) <==> exists fields: nat :: fields >= 2 && Splits(c, values, |c|, fields)
  {
    if Reconstructible(c, values) {
      var cuts: seq<nat>, picks: seq<nat> :| |picks| >= 2 && SplitAt(c, values, |c|, cuts, picks);
      CutsGiveSplits(c, values, |c|, cuts, picks);
      assert exists fields: nat :: fields >= 2 && Splits(c, values, |c|, fields);
    }
    if exists fields: nat :: fields >= 2 && Splits(c, values, |c|, fields) {
      var fields: nat :| fields >= 2 && Splits(c, values, |c|, fields);
      EnoughPieces(c, values, fields);
    }
  }

  // ---------- longest matches ----------

  /** The common extension of `c` from `i` and `v` from `j`: one table cell of the inner program. */
  function Common(c: string, i: nat, v: string, j: nat): nat
    decreases |c| - i
  {
    if i >= |c| || j >= |v| || c[i] != v[j] then 0 else 1 + Common(c, i + 1, v, j + 1)
  }

  lemma {:induction false} CommonIsLongest(c: string, i: nat, v: string, j: nat, n: nat)
    requires i <= |c| && j <= |v|
    ensures MatchAt(c, i, v, j, n) <==> n <= Common(c, i, v, j)
    decreases n
  {
    if n > 0 && i < |c| && j < |v| {
      CommonIsLongest(c, i + 1, v, j + 1, n - 1);
      if MatchAt(c, i, v, j, n) {
        assert c[i..i + n][0] == v[j..j + n][0];
        assert c[i..i + n][1..] == c[i + 1..i + 1 + (n - 1)] && v[j..j + n][1..] == v[j + 1..j + 1 + (n - 1)];
      }
      if c[i] == v[j] && MatchAt(c, i + 1, v, j + 1, n - 1) {
        assert c[i..i + n] == [c[i]] + c[i + 1..i + n] && v[j..j + n] == [v[j]] + v[j + 1..j + n];
      }
    }
  }

  /** `longest` is the length of the longest substring match of `c` from `i`. */
  ghost predicate LongestMatch(c: string, i: nat, v: string, longest: nat) {
    forall n :: 1 <= n ==> (Occurs(c, i, n, v) <==> n <= longest)
  }

  lemma LongestOverRow(c: string, i: nat, v: string, longest: nat)
    requires i < |c|
    requires forall j :: 0 <= j < |v| ==> Common(c, i, v, j) <= longest
    requires longest == 0 || exists j {:trigger Common(c, i, v, j)} :: 0 <= j < |v| && Common(c, i, v, j) == longest
    ensures LongestMatch(c, i, v, longest)
  {
    forall n | 1 <= n ensures Occurs(c, i, n, v) <==> n <= longest {
      if Occurs(c, i, n, v) {
        var j :| 0 <= j <= |v| && MatchAt(c, i, v, j, n);
        CommonIsLongest(c, i, v, j, n);
      }
      if n <= longest {
        var j :| 0 <= j < |v| && Common(c, i, v, j) == longest;
        CommonIsLongest(c, i, v, j, n);
      }
    }
  }

  /** For every start in the candidate, the length of its longest match in the value. */
  method MaximumCandidateMatches(candidate: string, value: string) returns (matches: array<nat>)
    ensures fresh(matches) && matches.Length == |candidate|
    ensures forall i :: 0 <= i < |candidate| ==> LongestMatch(candidate, i, value, matches[i])
  {
    matches := new nat[|candidate|](_ => 0);
    var following := new nat[|value| + 1](_ => 0);
    for i := |candidate| downto 0
      invariant fresh(following) && following != matches && following.Length == |value| + 1
      invariant forall j :: 0 <= j <= |value| ==> following[j] == Common(candidate, i, value, j)
      invariant forall k :: i <= k < |candidate| ==> LongestMatch(candidate, k, value, matches[k])
    {
      var current, maximum := FillRow(candidate, i, value, following);
      if maximum > 0 {
        var j :| 0 <= j < |value| && current[j] == maximum;
        assert Common(candidate, i, value, j) == maximum;
      }
      LongestOverRow(candidate, i, value, maximum);
      matches[i] := maximum;
      following := current;
    }
  }

  /** One row of the table, from the row below it. */
  method FillRow(candidate: string, i: nat, value: string, following: array<nat>) returns (current: array<nat>, maximum: nat)
    requires i < |candidate| && following.Length == |value| + 1
    requires forall j :: 0 <= j <= |value| ==> following[j] == Common(candidate, i + 1, value, j)
    ensures fresh(current) && current.Length == |value| + 1
    ensures forall j :: 0 <= j <= |value| ==> current[j] == Common(candidate, i, value, j)
    ensures forall j :: 0 <= j < |value| ==> current[j] <= maximum
    ensures maximum == 0 || exists j :: 0 <= j < |value| && current[j] == maximum
  {
    current := new nat[|value| + 1](_ => 0);
    maximum := 0;
    for j := |value| downto 0
      invariant forall k :: j <= k <= |value| ==> current[k] == Common(candidate, i, value, k)
      invariant forall k :: 0 <= k < j ==> current[k] == 0
      invariant forall k :: j <= k < |value| ==> current[k] <= maximum
      invariant maximum == 0 || exists k :: j <= k < |value| && current[k] == maximum
    {
      if candidate[i] == value[j] {
        current[j] := 1 + following[j + 1];
        if maximum < current[j] {
          maximum := current[j];
        }
      }
    }
  }

  // ---------- field counts per prefix, stored in 16 bits ----------

  const INT16_MAX: int := 32767

  /** Storing a number into a 16-bit signed cell. */
  function ToInt16(n: int): int {
    if -32768 <= n <= INT16_MAX then n else (n + 32768) % 65536 - 32768
  }

  function Max(a: int, b: int): int {
    if a >= b then a else b
  }

  /** The piece from `start` to `length` can extend a prefix that was reached before this field. */
  ghost predicate Reaches(c: string, row: seq<int>, v: string, start: nat, length: nat)
    requires |row| == |c| + 1
  {
    start <= |c| && row[start] >= 0 && Fragment(c, start, length, v)
  }

  /** The cell of prefix `length` once the starts below `bound` have been processed for the field `v`. */
  ghost function Cell(c: string, row: seq<int>, v: string, length: nat, bound: nat): int
    requires |row| == |c| + 1 && length <= |c| && bound <= |c|
  {
    if bound == 0 then row[length]
    else
      var cell := Cell(c, row, v, length, bound - 1);
      if Reaches(c, row, v, bound - 1, length) then ToInt16(Max(cell, row[bound - 1] + 1)) else cell
  }

  ghost function NextRow(c: string, row: seq<int>, v: string): (r: seq<int>)
    requires |row| == |c| + 1
    ensures |r| == |c| + 1
  {
    seq(|c| + 1, length requires 0 <= length <= |c| => Cell(c, row, v, length, |c|))
  }

  function FirstRow(c: string): (r: seq<int>)
    ensures |r| == |c| + 1
  {
    seq(|c| + 1, length => if length == 0 then 0 else -1)
  }

  /** The stored counts after all the fields. */
  ghost function Row(c: string, values: seq<string>): (r: seq<int>)
    ensures |r| == |c| + 1
  {
    if values == [] then FirstRow(c) else NextRow(c, Row(c, values[..|values| - 1]), values[|values| - 1])
  }

  /** After some field the whole candidate has a stored count of at least two. */
  ghost predicate Detected(c: string, values: seq<string>) {
    exists k {:trigger values[..k]} :: 0 <= k <= |values| && Row(c, values[..k])[|c|] >= 2
  }

  lemma RowSnoc(c: string, values: seq<string>, k: nat)
    requires k < |values|
    ensures Row(c, values[..k + 1]) == NextRow(c, Row(c, values[..k]), values[k])
  {
    assert values[..k + 1][..k] == values[..k];
  }

  lemma FirstRowFails(c: string, values: seq<string>)
    ensures Row(c, values[..0]) == FirstRow(c) && FirstRow(c)[|c|] < 2
  {
  }

  /** The array program, proved against the rows above. */
  method IsCandidateReconstructed(candidate: string, values: seq<string>) returns (found: bool)
    ensures found <==> Detected(candidate, values)
  {
    var matchedPrefixes := new int[|candidate| + 1](_ => -1);
    matchedPrefixes[0] := 0;
    FirstRowFails(candidate, values);
    for k := 0 to |values|
      invariant fresh(matchedPrefixes) && matchedPrefixes.Length == |candidate| + 1
      invariant matchedPrefixes[..] == Row(candidate, values[..k])
      invariant forall j {:trigger values[..j]} :: 0 <= j <= k ==> Row(candidate, values[..j])[|candidate|] < 2
    {
      RowSnoc(candidate, values, k);
      var nextMatches := NextMatches(candidate, matchedPrefixes, values[k]);
      if nextMatches[|candidate|] >= 2 {
        assert Row(candidate, values[..k + 1])[|candidate|] >= 2;
        return true;
      }
      matchedPrefixes := nextMatches;
    }
    assert values[..|values|] == values;
    return false;
  }

  /** One field: a copy of the row, extended in place from every reached prefix. */
  method NextMatches(candidate: string, matchedPrefixes: array<int>, value: string) returns (nextMatches: array<int>)
    requires matchedPrefixes.Length == |candidate| + 1
    ensures fresh(nextMatches) && nextMatches.Length == |candidate| + 1
    ensures nextMatches[..] == NextRow(candidate, matchedPrefixes[..], value)
  {
    var maximumMatches := MaximumCandidateMatches(candidate, value);
    ghost var row := matchedPrefixes[..];
    nextMatches := new int[|candidate| + 1](i requires 0 <= i <= |candidate| reads matchedPrefixes => matchedPrefixes[i]);
    for start := 0 to |candidate|
      invariant forall i :: 0 <= i < |candidate| ==> LongestMatch(candidate, i, value, maximumMatches[i])
      invariant matchedPrefixes[..] == row
      invariant forall n :: 0 <= n <= |candidate| ==> nextMatches[n] == Cell(candidate, row, value, n, start)
    {
      var fieldCount := matchedPrefixes[start];
      var maximumMatch := maximumMatches[start];
      ReachesWithin(candidate, row, value, start, maximumMatch);
      if fieldCount >= 0 && maximumMatch > 0 {
        for fragment := 1 to maximumMatch + 1
          invariant forall n :: 0 <= n <= |candidate| ==>
                      nextMatches[n] == Cell(candidate, row, value, n, if start < n < start + fragment then start + 1 else start)
          invariant matchedPrefixes[..] == row
          invariant forall i :: 0 <= i < |candidate| ==> LongestMatch(candidate, i, value, maximumMatches[i])
        {
          var nextLength := start + fragment;
          nextMatches[nextLength] := ToInt16(Max(nextMatches[nextLength], fieldCount + 1));
        }
      }
    }
  }

  /** A start reaches exactly the prefixes within its longest match, and none when it was not reached itself. */
  lemma ReachesWithin(c: string, row: seq<int>, v: string, start: nat, longest: nat)
    requires |row| == |c| + 1 && start < |c| && LongestMatch(c, start, v, longest)
    ensures start + longest <= |c|
    ensures forall n {:trigger Reaches(c, row, v, start, n)} :: 0 <= n <= |c| ==>
              (Reaches(c, row, v, start, n) <==> row[start] >= 0 && start < n <= start + longest)
  {
    if longest > 0 {
      assert Occurs(c, start, longest, v);
    }
  }

  // ---------- soundness, exactness, and the limit of 16 bits ----------

  predicate IsInt16(n: int) {
    -32768 <= n <= INT16_MAX
  }

  lemma Int16Step(n: int, cell: int)
    requires IsInt16(n) && IsInt16(cell)
    ensures IsInt16(ToInt16(Max(cell, n + 1)))
    ensures n < INT16_MAX ==> ToInt16(Max(cell, n + 1)) == Max(cell, n + 1)
    ensures n == INT16_MAX ==> ToInt16(Max(cell, n + 1)) == -32768
  {
  }

  /** Stored counts fit their cells and are counts of real splits. */
  ghost predicate SoundRow(c: string, values: seq<string>, row: seq<int>) {
    && |row| == |c| + 1
    && (forall n :: 0 <= n <= |c| ==> IsInt16(row[n]))
    && (forall n :: 0 <= n <= |c| && row[n] >= 0 ==> Splits(c, values, n, row[n]))
  }

  lemma {:induction false} SoundCell(c: string, front: seq<string>, row: seq<int>, v: string, length: nat, bound: nat)
    requires SoundRow(c, front, row) && length <= |c| && bound <= |c|
    ensures IsInt16(Cell(c, row, v, length, bound))
    ensures Cell(c, row, v, length, bound) >= 0 ==> Splits(c, front + [v], length, Cell(c, row, v, length, bound))
  {
    if bound == 0 {
      if row[length] >= 0 {
        SplitsSnoc(c, front, v, length, row[length]);
      }
    } else {
      SoundCell(c, front, row, v, length, bound - 1);
      if Reaches(c, row, v, bound - 1, length) {
        Int16Step(row[bound - 1], Cell(c, row, v, length, bound - 1));
        SplitsSnoc(c, front, v, length, row[bound - 1] + 1);
      }
    }
  }

  lemma {:induction false} RowIsSound(c: string, values: seq<string>)
    ensures SoundRow(c, values, Row(c, values))
  {
    if values != [] {
      var front, v := values[..|values| - 1], values[|values| - 1];
      assert values == front + [v];
      RowIsSound(c, front);
      forall n | 0 <= n <= |c|
        ensures IsInt16(Row(c, values)[n]) && (Row(c, values)[n] >= 0 ==> Splits(c, values, n, Row(c, values)[n]))
      {
        SoundCell(c, front, Row(c, front), v, n, |c|);
      }
    }
  }

  /** Stored counts are the largest counts of any split. */
  ghost predicate FullRow(c: string, values: seq<string>, row: seq<int>) {
    |row| == |c| + 1 && forall n: nat, fields: nat {:trigger Splits(c, values, n, fields)} ::
      0 <= n <= |c| && Splits(c, values, n, fields) ==> fields <= row[n]
  }

  /** No field count can outgrow a 16-bit cell. */
  predicate Small(c: string, values: seq<string>) {
    |c| <= INT16_MAX || |values| <= INT16_MAX
  }

  lemma {:induction false} CellGrows(c: string, front: seq<string>, row: seq<int>, v: string, length: nat, bound: nat)
    requires SoundRow(c, front, row) && length <= |c| && bound <= |c| && Small(c, front + [v])
    ensures Cell(c, row, v, length, bound) >= row[length]
    ensures forall start {:trigger Reaches(c, row, v, start, length)} ::
              0 <= start < bound && Reaches(c, row, v, start, length) ==> Cell(c, row, v, length, bound) >= row[start] + 1
  {
    if bound > 0 {
      CellGrows(c, front, row, v, length, bound - 1);
      if Reaches(c, row, v, bound - 1, length) {
        SplitsBounds(c, front, bound - 1, row[bound - 1]);
        SoundCell(c, front, row, v, length, bound - 1);
        Int16Step(row[bound - 1], Cell(c, row, v, length, bound - 1));
      }
    }
  }

  lemma FullStep(c: string, front: seq<string>, row: seq<int>, v: string, length: nat, fields: nat)
    requires SoundRow(c, front, row) && FullRow(c, front, row) && length <= |c| && Small(c, front + [v])
    requires Splits(c, front + [v], length, fields)
    ensures fields <= Cell(c, row, v, length, |c|)
  {
    CellGrows(c, front, row, v, length, |c|);
    SplitsSnoc(c, front, v, length, fields);
    if !Splits(c, front, length, fields) {
      var start :| fields > 0 && Fragment(c, start, length, v) && Splits(c, front, start, fields - 1);
      assert Reaches(c, row, v, start, length);
    }
  }

  lemma {:induction false} RowIsFull(c: string, values: seq<string>)
    requires Small(c, values)
    ensures FullRow(c, values, Row(c, values))
  {
    if values != [] {
      var front, v := values[..|values| - 1], values[|values| - 1];
      assert values == front + [v];
      RowIsFull(c, front);
      RowIsSound(c, front);
      forall n: nat, fields: nat | 0 <= n <= |c| && Splits(c, values, n, fields) ensures fields <= Row(c, values)[n] {
        FullStep(c, front, Row(c, front), v, n, fields);
      }
    }
  }

  lemma {:induction false} SplitsLast(c: string, values: seq<string>, k: nat, length: nat, fields: nat)
    requires k <= |values| && Splits(c, values[..k], length, fields)
    ensures Splits(c, values, length, fields)
    decreases |values| - k
  {
    if k == |values| {
      assert values[..k] == values;
    } else {
      assert values[..k + 1][..k] == values[..k];
      SplitsLast(c, values, k + 1, length, fields);
    }
  }

  /** The detector never reports a candidate that the fields do not spell. */
  lemma DetectionIsSound(c: string, values: seq<string>)
    ensures Detected(c, values) ==> Reconstructible(c, values)
  {
    if Detected(c, values) {
      var k :| 0 <= k <= |values| && Row(c, values[..k])[|c|] >= 2;
      RowIsSound(c, values[..k]);
      var fields: nat := Row(c, values[..k])[|c|];
      SplitsLast(c, values, k, |c|, fields);
      EnoughPieces(c, values, fields);
    }
  }

  /** While no count can outgrow its cell the detector is exact, and the stored count of a prefix is the
      largest number of fields that spell it, never more than its length. */
  lemma DetectionIsExact(c: string, values: seq<string>)
    requires Small(c, values)
    ensures Detected(c, values) <==> Reconstructible(c, values)
    ensures forall n :: 0 <= n <= |c| && Row(c, values)[n] >= 0 ==> Row(c, values)[n] <= n && Splits(c, values, n, Row(c, values)[n])
    ensures forall n: nat, fields: nat {:trigger Splits(c, values, n, fields)} ::
              0 <= n <= |c| && Splits(c, values, n, fields) ==> fields <= Row(c, values)[n]
  {
    DetectionIsSound(c, values);
    RowIsSound(c, values);
    RowIsFull(c, values);
    forall n | 0 <= n <= |c| && Row(c, values)[n] >= 0 ensures Row(c, values)[n] <= n {
      SplitsBounds(c, values, n, Row(c, values)[n]);
    }
    if Reconstructible(c, values) {
      ReconstructibleBySplits(c, values);
      var fields: nat :| fields >= 2 && Splits(c, values, |c|, fields);
      assert values[..|values|] == values;
    }
  }

  // ---------- beyond 16 bits ----------

  function Repeat(ch: char, n: nat): (r: string)
    ensures |r| == n && forall i :: 0 <= i < n ==> r[i] == ch
  {
    seq(n, _ => ch)
  }

  /** As many one-letter pieces as fit a cell, then one more piece. */
  function Overflowing(length: nat): (c: string)
    requires length > INT16_MAX
    ensures |c| == length && forall i :: 0 <= i < length ==> c[i] == if i < INT16_MAX then 'a' else 'b'
  {
    Repeat('a', INT16_MAX) + Repeat('b', length - INT16_MAX)
  }

  /** One field per piece, then fields that match nothing. */
  function OverflowField(length: nat, k: nat): string
    requires length > INT16_MAX
  {
    if k < INT16_MAX then "a" else if k == INT16_MAX then Repeat('b', length - INT16_MAX) else "c"
  }

  function OverflowFields(length: nat, n: nat): (values: seq<string>)
    requires length > INT16_MAX
    ensures |values| == n
  {
    seq(n, k requires 0 <= k < n => OverflowField(length, k))
  }

  lemma OverflowPrefix(length: nat, n: nat)
    requires length > INT16_MAX && n > 0
    ensures OverflowFields(length, n)[..n - 1] == OverflowFields(length, n - 1)
    ensures OverflowFields(length, n) == OverflowFields(length, n - 1) + [OverflowField(length, n - 1)]
  {
  }

  /** Where the pieces of the overflowing candidate stand. */
  lemma OverflowFragments(length: nat, k: nat, from: nat, to: nat)
    requires length > INT16_MAX
    ensures Fragment(Overflowing(length), from, to, OverflowField(length, k)) <==>
              if k < INT16_MAX then to == from + 1 <= INT16_MAX
              else k == INT16_MAX && INT16_MAX <= from < to <= length
  {
    var c, v := Overflowing(length), OverflowField(length, k);
    if Fragment(c, from, to, v) {
      var j :| 0 <= j <= |v| && MatchAt(c, from, v, j, to - from);
      assert c[from..to][0] == v[j..j + (to - from)][0];
      assert c[from] == v[j];
    }
    if k < INT16_MAX && to == from + 1 <= INT16_MAX {
      assert MatchAt(c, from, v, 0, 1);
    }
    if k == INT16_MAX && INT16_MAX <= from < to <= length {
      assert MatchAt(c, from, v, 0, to - from);
    }
  }

  /** What a cell holds: `i` pieces for the first `i` letters, and no count beyond the last storable one. */
  function OverflowCount(n: nat, i: nat): int {
    if i <= n && i <= INT16_MAX then i else if n > INT16_MAX && i > INT16_MAX then -32768 else -1
  }

  predicate OverflowRow(length: nat, n: nat, row: seq<int>) {
    |row| == length + 1 && forall i :: 0 <= i <= length ==> row[i] == OverflowCount(n, i)
  }

  /** A cell that at most one start reaches. */
  lemma {:induction false} OneReach(c: string, row: seq<int>, v: string, length: nat, only: nat, bound: nat)
    requires |row| == |c| + 1 && length <= |c| && bound <= |c| && only <= |c|
    requires forall start {:trigger Reaches(c, row, v, start, length)} :: Reaches(c, row, v, start, length) ==> start == only
    ensures Cell(c, row, v, length, bound)
            == if bound > only && Reaches(c, row, v, only, length) then ToInt16(Max(row[length], row[only] + 1)) else row[length]
  {
    if bound > 0 {
      OneReach(c, row, v, length, only, bound - 1);
    }
  }

  lemma OverflowReaches(length: nat, n: nat, row: seq<int>, i: nat, start: nat)
    requires length > INT16_MAX && OverflowRow(length, n, row) && i <= length
    ensures Reaches(Overflowing(length), row, OverflowField(length, n), start, i) <==>
              if n < INT16_MAX then start <= n && i == start + 1 else n == INT16_MAX && start == INT16_MAX < i
  {
    OverflowFragments(length, n, start, i);
  }

  lemma OverflowCell(length: nat, n: nat, row: seq<int>, i: nat)
    requires length > INT16_MAX && OverflowRow(length, n, row) && i <= length
    ensures Cell(Overflowing(length), row, OverflowField(length, n), i, length) == OverflowCount(n + 1, i)
  {
    var only := if n >= INT16_MAX then INT16_MAX else if i == 0 then 0 else i - 1;
    forall start ensures Reaches(Overflowing(length), row, OverflowField(length, n), start, i) ==> start == only {
      OverflowReaches(length, n, row, i, start);
    }
    OneReach(Overflowing(length), row, OverflowField(length, n), i, only, length);
    OverflowReaches(length, n, row, i, only);
  }

  lemma {:induction false} OverflowRows(length: nat, n: nat)
    requires length > INT16_MAX
    ensures OverflowRow(length, n, Row(Overflowing(length), OverflowFields(length, n)))
  {
    if n == 0 {
      assert OverflowFields(length, 0) == [];
    } else {
      var c, row := Overflowing(length), Row(Overflowing(length), OverflowFields(length, n - 1));
      OverflowPrefix(length, n);
      OverflowRows(length, n - 1);
      assert Row(c, OverflowFields(length, n)) == NextRow(c, row, OverflowField(length, n - 1));
      forall i | 0 <= i <= length ensures NextRow(c, row, OverflowField(length, n - 1))[i] == OverflowCount(n, i) {
        OverflowCell(length, n - 1, row, i);
      }
    }
  }

  lemma {:induction false} LettersSplit(length: nat, n: nat)
    requires length > INT16_MAX && n <= INT16_MAX
    ensures Splits(Overflowing(length), OverflowFields(length, n), n, n)
  {
    if n == 0 {
      assert OverflowFields(length, 0) == [];
    } else {
      LettersSplit(length, n - 1);
      OverflowPrefix(length, n);
      OverflowFragments(length, n - 1, n - 1, n);
      SplitsSnoc(Overflowing(length), OverflowFields(length, n - 1), OverflowField(length, n - 1), n, n);
    }
  }

  lemma {:induction false} OverflowSplits(length: nat, n: nat)
    requires length > INT16_MAX && n > INT16_MAX
    ensures Splits(Overflowing(length), OverflowFields(length, n), length, INT16_MAX + 1)
  {
    OverflowPrefix(length, n);
    if n == INT16_MAX + 1 {
      LettersSplit(length, INT16_MAX);
      OverflowFragments(length, INT16_MAX, INT16_MAX, length);
    } else {
      OverflowSplits(length, n - 1);
    }
    SplitsSnoc(Overflowing(length), OverflowFields(length, n - 1), OverflowField(length, n - 1), length, INT16_MAX + 1);
  }

  /** A candidate and fields, of any sizes beyond 16 bits, that the detector misses. */
  lemma MissedBeyondInt16(length: nat, n: nat)
    requires length > INT16_MAX && n > INT16_MAX
    ensures |Overflowing(length)| == length && |OverflowFields(length, n)| == n
    ensures Reconstructible(Overflowing(length), OverflowFields(length, n))
    ensures !Detected(Overflowing(length), OverflowFields(length, n))
  {
    var c, values := Overflowing(length), OverflowFields(length, n);
    var fields: nat := INT16_MAX + 1;
    OverflowSplits(length, n);
    EnoughPieces(c, values, fields);
    forall k {:trigger values[..k]} | 0 <= k <= n ensures Row(c, values[..k])[length] < 2 {
      assert values[..k] == OverflowFields(length, k);
      OverflowRows(length, k);
    }
  }

  ghost predicate ExactOn(length: nat, n: nat) {
    forall c: string, values: seq<string> {:trigger Detected(c, values)} ::
      |c| == length && |values| == n ==> (Detected(c, values) <==> Reconstructible(c, values))
  }

  /** The detector is exact on all inputs of given sizes if and only if the candidate or the number of fields
      is at most 32767. */
  lemma ExactIffInt16(length: nat, n: nat)
    ensures ExactOn(length, n) <==> length <= INT16_MAX || n <= INT16_MAX
  {
    if length <= INT16_MAX || n <= INT16_MAX {
      forall c: string, values: seq<string> | |c| == length && |values| == n
        ensures Detected(c, values) <==> Reconstructible(c, values)
      {
        DetectionIsExact(c, values);
      }
    } else {
      MissedBeyondInt16(length, n);
    }
  }

  // ---------- the caller ----------

  /** A private text, and how many code units its normal form must have to count. */
  datatype PrivateText = PrivateText(text: string, minimumLength: nat)

  predicate NotEmpty(value: string) {
    value != []
  }

  predicate Includes(value: string, candidate: string) {
    Occurs(candidate, 0, |candidate|, value)
  }

  const IDENTIFIER_MINIMUM: nat := 4

  /** The normalized private texts and identifiers that are long enough to count. */
  function Candidates(normalize: string -> string, texts: seq<PrivateText>, identifiers: seq<string>): seq<string> {
    LongEnough(normalize, texts) + LongEnough(normalize, Map((id: string) => PrivateText(id, IDENTIFIER_MINIMUM), identifiers))
  }

  function LongEnough(normalize: string -> string, texts: seq<PrivateText>): seq<string> {
    if texts == [] then []
    else
      var candidate := normalize(texts[0].text);
      (if CodeUnits(candidate) >= texts[0].minimumLength then [candidate] else []) + LongEnough(normalize, texts[1..])
  }

  /** The length of a text in UTF-16, which takes two code units for a character beyond the first plane. */
  function CodeUnits(text: string): nat {
    if text == [] then 0 else (if text[0] <= '\U{ffff}' then 1 else 2) + CodeUnits(text[1..])
  }

  /** The candidate is spelled across the fields, though no single field contains it. */
  ghost predicate SpreadOver(candidate: string, values: seq<string>) {
    && (forall value :: value in values ==> !Includes(value, candidate))
    && (exists fields: nat :: fields > 0 && Splits(candidate, values, |candidate|, fields))
  }

  ghost predicate Flagged(candidate: string, values: seq<string>) {
    (forall value :: value in values ==> !Includes(value, candidate)) && Detected(candidate, values)
  }

  /** Scan of the candidates over the normalized, non-empty output fields. */
  method ExposesFragmentedPrivateContent(normalize: string -> string, values: seq<string>, texts: seq<PrivateText>, identifiers: seq<string>)
    returns (exposes: bool)
    ensures exposes <==> exists candidate :: candidate in Candidates(normalize, texts, identifiers)
                           && Flagged(candidate, Filter(NotEmpty, Map(normalize, values)))
  {
    var normalizedValues := Filter(NotEmpty, Map(normalize, values));
    var candidates := Candidates(normalize, texts, identifiers);
    for k := 0 to |candidates|
      invariant forall i :: 0 <= i < k ==> !Flagged(candidates[i], normalizedValues)
    {
      var candidate := candidates[k];
      if !(exists value :: value in normalizedValues && Includes(value, candidate)) {
        var found := IsCandidateReconstructed(candidate, normalizedValues);
        if found {
          assert candidate in candidates && Flagged(candidate, normalizedValues);
          return true;
        }
      }
    }
    return false;
  }

  /** Dropping empty fields changes no split. */
  lemma {:induction false} EmptyFieldsDoNotMatter(c: string, values: seq<string>, length: nat, fields: nat)
    ensures Splits(c, Filter(NotEmpty, values), length, fields) <==> Splits(c, values, length, fields)
  {
    if values != [] {
      var front, v := values[..|values| - 1], values[|values| - 1];
      assert values == front + [v];
      FilterAppend(NotEmpty, front, [v]);
      assert Filter(NotEmpty, [v]) == if v != [] then [v] else [];
      forall l: nat, f: nat ensures Splits(c, Filter(NotEmpty, front), l, f) <==> Splits(c, front, l, f) {
        EmptyFieldsDoNotMatter(c, front, l, f);
      }
      SplitsSnoc(c, front, v, length, fields);
      if v == [] {
        assert Filter(NotEmpty, values) == Filter(NotEmpty, front);
        assert forall start :: !Fragment(c, start, length, v);
      } else {
        SplitsSnoc(c, Filter(NotEmpty, front), v, length, fields);
      }
    }
  }

  /** A split into a single piece is a field that contains the whole candidate. */
  lemma {:induction false} OnePiece(c: string, values: seq<string>)
    requires Splits(c, values, |c|, 1)
    ensures exists value :: value in values && Includes(value, c)
  {
    var cuts, picks := SplitsGivesCuts(c, values, |c|, 1);
    assert Piece(c, values, cuts[0], cuts[1], picks[0]);
    assert values[picks[0]] in values;
  }

  lemma FlaggedIsSpread(c: string, values: seq<string>)
    requires Small(c, values)
    ensures Flagged(c, values) <==> SpreadOver(c, values)
  {
    DetectionIsExact(c, values);
    ReconstructibleBySplits(c, values);
    if SpreadOver(c, values) && !Reconstructible(c, values) {
      var fields: nat :| fields > 0 && Splits(c, values, |c|, fields);
      if fields >= 2 {
        EnoughPieces(c, values, fields);
      } else {
        OnePiece(c, values);
      }
    }
  }

  lemma SpreadIgnoresEmptyFields(c: string, all: seq<string>)
    ensures SpreadOver(c, Filter(NotEmpty, all)) <==> SpreadOver(c, all)
  {
    var kept := Filter(NotEmpty, all);
    FilterMembers(NotEmpty, all);
    if SpreadOver(c, kept) {
      var fields: nat :| fields > 0 && Splits(c, kept, |c|, fields);
      SplitsBounds(c, kept, |c|, fields);
      EmptyFieldsDoNotMatter(c, all, |c|, fields);
      forall value | value in all ensures !Includes(value, c) {
        if value != [] {
          assert value in kept;
        }
      }
    }
    if SpreadOver(c, all) {
      var fields: nat :| fields > 0 && Splits(c, all, |c|, fields);
      EmptyFieldsDoNotMatter(c, all, |c|, fields);
    }
  }

  /** Within 16 bits the caller flags exactly the candidates that the fields spell together and no field
      spells alone; empty fields make no difference. */
  lemma FlaggingIsExact(normalize: string -> string, values: seq<string>, c: string)
    requires |c| <= INT16_MAX || |values| <= INT16_MAX
    ensures Flagged(c, Filter(NotEmpty, Map(normalize, values))) <==> SpreadOver(c, Map(normalize, values))
  {
    FilterShorter(NotEmpty, Map(normalize, values));
    FlaggedIsSpread(c, Filter(NotEmpty, Map(normalize, values)));
    SpreadIgnoresEmptyFields(c, Map(normalize, values));
  }

  /** The text is a normalized private text of its minimum length, or a normalized identifier of at least four code units. */
  predicate IsPrivate(normalize: string -> string, texts: seq<PrivateText>, identifiers: seq<string>, c: string) {
    || (exists k :: 0 <= k < |texts| && c == normalize(texts[k].text) && CodeUnits(c) >= texts[k].minimumLength)
    || (exists k :: 0 <= k < |identifiers| && c == normalize(identifiers[k]) && CodeUnits(c) >= 4)
  }

  lemma {:induction false} LongEnoughAre(normalize: string -> string, texts: seq<PrivateText>, c: string)
    ensures c in LongEnough(normalize, texts)
            <==> exists k :: 0 <= k < |texts| && c == normalize(texts[k].text) && CodeUnits(c) >= texts[k].minimumLength
  {
    if texts != [] {
      LongEnoughAre(normalize, texts[1..], c);
      assert forall k :: 0 < k < |texts| ==> texts[k] == texts[1..][k - 1];
    }
  }

  lemma CandidatesArePrivate(normalize: string -> string, texts: seq<PrivateText>, identifiers: seq<string>, c: string)
    ensures c in Candidates(normalize, texts, identifiers) <==> IsPrivate(normalize, texts, identifiers, c)
  {
    var named := Map((id: string) => PrivateText(id, IDENTIFIER_MINIMUM), identifiers);
    LongEnoughAre(normalize, texts, c);
    LongEnoughAre(normalize, named, c);
    assert forall k :: 0 <= k < |identifiers| ==> named[k] == PrivateText(identifiers[k], 4);
  }

  /** A text has one code unit more than characters for each character beyond the first plane. */
  lemma {:induction false} CodeUnitsCount(text: string)
    ensures CodeUnits(text) == |text| + |Filter((ch: char) => ch > '\U{ffff}', text)|
  {
    if text != [] {
      CodeUnitsCount(text[1..]);
    }
  }

  /** With at most 32767 fields: the scan finds something if and only if some private text is spelled across the fields
      and no single field contains it. */
  lemma ScanIsExact(normalize: string -> string, values: seq<string>, texts: seq<PrivateText>, identifiers: seq<string>)
    requires |values| <= INT16_MAX
    ensures (exists c :: c in Candidates(normalize, texts, identifiers) && Flagged(c, Filter(NotEmpty, Map(normalize, values))))
            <==> exists c :: IsPrivate(normalize, texts, identifiers, c) && SpreadOver(c, Map(normalize, values))
  {
    forall c
      ensures c in Candidates(normalize, texts, identifiers) <==> IsPrivate(normalize, texts, identifiers, c)
      ensures Flagged(c, Filter(NotEmpty, Map(normalize, values))) <==> SpreadOver(c, Map(normalize, values))
    {
      CandidatesArePrivate(normalize, texts, identifiers, c);
      FlaggingIsExact(normalize, values, c);
    }
  }

  lemma {:induction false} FilterShorter<T(!new)>(p: T -> bool, s: seq<T>)
    ensures |Filter(p, s)| <= |s|
  {
    if s != [] {
      FilterShorter(p, s[1..]);
    }
  }
}
