/**
 * Data preparation of the sunburst card: the body of `_prepareData` after the
 * fetch. Raw rows whose byte value does not exceed 5000 are dropped, colliding
 * labels are renamed `label_1`, `label_2`, ... until unused, and byte values are
 * converted to megabytes. The specification functions below describe the
 * result; `ProcessRows` and `UniqueLabel` are the card's own loops, proved
 * against them.
 */
module SunburstData {
  import opened Wrappers
  import opened Collections

  /** Rows whose raw value is at most this many bytes are dropped. */
  const Threshold: real := 5000.0

  /** The divisor `1e6` turning bytes into megabytes (exact, not IEEE). */
  const BytesPerMB: real := 1000000.0

  /** A parent as read from the raw `parents` array: None when that array has
      no element at the row's index (JavaScript `undefined`). */
  type Parent = Option<string>

  /** The single sunburst trace the card caches: three index-aligned columns. */
  datatype Trace = Trace(labels: seq<string>, parents: seq<Parent>, values: seq<real>)

  /** What `fetch(jsonUrl)` and `response.json()` deliver. A key of the body is
      None when it is absent or falsy (`null`, `0`, `""`, `false`); an array,
      even an empty one, is truthy. */
  datatype Fetch =
    | NotOk(statusText: string)
    | Malformed
    | Body(labels: Option<seq<string>>, parents: Option<seq<string>>, values: Option<seq<real>>)

  ghost predicate Aligned(t: Trace)
  {
    |t.labels| == |t.parents| == |t.values|
  }

  // ---------------------------------------------------------------------------
  // The suffix candidates `label`, `label_1`, `label_2`, ...
  // ---------------------------------------------------------------------------

  function DigitChar(d: nat): char
    requires d < 10
  {
    ('0' as int + d) as char
  }

  /** The decimal text of `n`, as a template literal renders an integer. */
  function Decimal(n: nat): (s: string)
    ensures |s| >= 1
    ensures n >= 10 <==> |s| >= 2
  {
    if n < 10 then [DigitChar(n)] else Decimal(n / 10) + [DigitChar(n % 10)]
  }

  /** Different counters render as different texts. */
  lemma {:induction false} DecimalInjective(a: nat, b: nat)
    requires Decimal(a) == Decimal(b)
    ensures a == b
  {
    if a >= 10 && b >= 10 {
      var sa, sb := Decimal(a), Decimal(b);
      assert sa[|sa| - 1] == DigitChar(a % 10);
      assert sb[|sb| - 1] == DigitChar(b % 10);
      assert sa[..|sa| - 1] == Decimal(a / 10);
      assert sb[..|sb| - 1] == Decimal(b / 10);
      DecimalInjective(a / 10, b / 10);
    } else if a < 10 && b < 10 {
      assert Decimal(a)[0] == DigitChar(a);
      assert Decimal(b)[0] == DigitChar(b);
    }
  }

  /** The k-th label tried for `base`: `base` itself for k = 0, else `base_k`. */
  function Candidate(base: string, k: nat): string
  {
    if k == 0 then base else base + "_" + Decimal(k)
  }

  lemma CandidateInjective(base: string, i: nat, j: nat)
    requires Candidate(base, i) == Candidate(base, j)
    ensures i == j
  {
    if i != 0 && j != 0 {
      var ci, cj := Candidate(base, i), Candidate(base, j);
      assert ci[|base| + 1..] == Decimal(i);
      assert cj[|base| + 1..] == Decimal(j);
      DecimalInjective(i, j);
    }
  }

  /** The first counter, from `k` on, whose candidate is not in `seen`. Each step
      drops the candidate just found from `seen`, which does not change whether
      a later candidate is in it (the candidates are distinct). */
  function FirstFree(base: string, seen: set<string>, k: nat): nat
    decreases |seen|
  {
    if Candidate(base, k) !in seen then k
    else FirstFree(base, seen - {Candidate(base, k)}, k + 1)
  }

  lemma {:induction false} FirstFreeIsLeast(base: string, seen: set<string>, k: nat)
    ensures k <= FirstFree(base, seen, k)
    ensures Candidate(base, FirstFree(base, seen, k)) !in seen
    ensures forall j :: k <= j < FirstFree(base, seen, k) ==> Candidate(base, j) in seen
  {
    var c := Candidate(base, k);
    if c in seen {
      var r := FirstFree(base, seen - {c}, k + 1);
      FirstFreeIsLeast(base, seen - {c}, k + 1);
      if Candidate(base, r) == c {
        CandidateInjective(base, r, k);
      }
    }
  }

  /** The label the inner `while` loop settles on. */
  function FreshLabel(base: string, seen: set<string>): string
  {
    Candidate(base, FirstFree(base, seen, 0))
  }

  /** `k` is the least counter of at least 1 whose suffixed label is unused. */
  ghost predicate LeastSuffix(base: string, seen: set<string>, k: nat)
  {
    k >= 1 && base + "_" + Decimal(k) !in seen &&
    forall j :: 1 <= j < k ==> base + "_" + Decimal(j) in seen
  }

  /** The suffix rule: an unused label is kept as it is; a used one becomes
      `base_k` for exactly the least unused k of at least 1. The result is
      never in `seen`. */
  lemma FreshLabelRule(base: string, seen: set<string>)
    ensures FreshLabel(base, seen) !in seen
    ensures base !in seen ==> FreshLabel(base, seen) == base
    ensures base in seen ==>
      forall k: nat :: LeastSuffix(base, seen, k) <==> FreshLabel(base, seen) == base + "_" + Decimal(k)
  {
    var r := FirstFree(base, seen, 0);
    FirstFreeIsLeast(base, seen, 0);
    if base in seen {
      assert r >= 1;
      assert FreshLabel(base, seen) == Candidate(base, r) == base + "_" + Decimal(r);
      assert LeastSuffix(base, seen, r) by {
        forall j | 1 <= j < r ensures base + "_" + Decimal(j) in seen {
          assert Candidate(base, j) in seen;
        }
      }
      forall k: nat | true
        ensures LeastSuffix(base, seen, k) <==> FreshLabel(base, seen) == base + "_" + Decimal(k)
      {
        if LeastSuffix(base, seen, k) {
          assert Candidate(base, k) == base + "_" + Decimal(k);
          assert k == r;
        }
        if FreshLabel(base, seen) == base + "_" + Decimal(k) {
          assert (base + "_" + Decimal(r))[|base| + 1..] == Decimal(r);
          assert (base + "_" + Decimal(k))[|base| + 1..] == Decimal(k);
          DecimalInjective(r, k);
        }
      }
    }
  }

  // ---------------------------------------------------------------------------
  // Filtering, renaming and unit conversion
  // ---------------------------------------------------------------------------

  /** Row `i` passes the filter: `values[i] > 5000`, which is false when
      `values` has no element at `i`. */
  predicate Keep(values: seq<real>, i: nat)
  {
    i < |values| && values[i] > Threshold
  }

  function ParentAt(parents: seq<string>, i: nat): Parent
  {
    if i < |parents| then Some(parents[i]) else None
  }

  /** The trace built from the first `n` rows, in the order the card visits them. */
  function PrepareUpTo(labels: seq<string>, parents: seq<string>, values: seq<real>, n: nat): Trace
    requires n <= |labels|
  {
    if n == 0 then Trace([], [], [])
    else
      var t := PrepareUpTo(labels, parents, values, n - 1);
      if Keep(values, n - 1) then
        Trace(t.labels + [FreshLabel(labels[n - 1], Elems(t.labels))],
              t.parents + [ParentAt(parents, n - 1)],
              t.values + [values[n - 1] / BytesPerMB])
      else t
  }

  /** The trace built from a body that has all three keys. Iteration runs over
      `labels`; the other two arrays are read at the same index. */
  function Prepare(labels: seq<string>, parents: seq<string>, values: seq<real>): Trace
  {
    PrepareUpTo(labels, parents, values, |labels|)
  }

  /** The indices, in increasing order, of the rows among the first `n` that
      pass the filter: an independent description of which rows are kept. */
  function KeptIndices(values: seq<real>, n: nat): seq<nat>
  {
    if n == 0 then [] else KeptIndices(values, n - 1) + (if Keep(values, n - 1) then [n - 1] else [])
  }

  /** A row is kept iff its value exceeds 5000, and kept rows stay in input order. */
  lemma {:induction false} KeptIndicesExact(values: seq<real>, n: nat)
    ensures forall i: nat :: i in KeptIndices(values, n) <==> i < n && Keep(values, i)
    ensures forall a, b :: 0 <= a < b < |KeptIndices(values, n)| ==>
      KeptIndices(values, n)[a] < KeptIndices(values, n)[b]
  {
    if n > 0 {
      KeptIndicesExact(values, n - 1);
      var prev := KeptIndices(values, n - 1);
      assert forall a :: 0 <= a < |prev| ==> prev[a] < n - 1 by {
        forall a | 0 <= a < |prev| ensures prev[a] < n - 1 {
          assert prev[a] in prev;
        }
      }
    }
  }

  lemma {:induction false} NoneKept(values: seq<real>, n: nat)
    requires forall i :: 0 <= i < |values| ==> values[i] <= Threshold
    ensures KeptIndices(values, n) == []
  {
    if n > 0 {
      NoneKept(values, n - 1);
    }
  }

  /** Output position j comes from the j-th kept row: its parent is copied
      unchanged, its value is the raw value in megabytes, and its base is the
      fresh base for the row's base given the labels emitted before it. The
      three columns have one entry per kept row. */
  lemma {:induction false} PrepareMatchesKept(labels: seq<string>, parents: seq<string>, values: seq<real>, n: nat)
    requires n <= |labels|
    ensures var t, kept := PrepareUpTo(labels, parents, values, n), KeptIndices(values, n);
      && |t.labels| == |kept| && |t.parents| == |kept| && |t.values| == |kept|
      && forall j :: 0 <= j < |kept| ==>
           && kept[j] < |labels| && Keep(values, kept[j])
           && t.parents[j] == ParentAt(parents, kept[j])
           && t.values[j] * BytesPerMB == values[kept[j]]
           && t.labels[j] == FreshLabel(labels[kept[j]], Elems(t.labels[..j]))
  {
    if n > 0 {
      PrepareMatchesKept(labels, parents, values, n - 1);
      KeptIndicesExact(values, n - 1);
      var t := PrepareUpTo(labels, parents, values, n - 1);
      var kept := KeptIndices(values, n - 1);
      assert forall j :: 0 <= j < |kept| ==> kept[j] < n - 1 by {
        forall j | 0 <= j < |kept| ensures kept[j] < n - 1 {
          assert kept[j] in kept;
        }
      }
      if Keep(values, n - 1) {
        var t' := PrepareUpTo(labels, parents, values, n);
        assert t'.labels[..|t.labels|] == t.labels;
        forall j | 0 <= j < |t.labels| ensures t'.labels[..j] == t.labels[..j] {
          assert t'.labels[..j] == t'.labels[..|t.labels|][..j];
        }
      }
    }
  }

  /** The emitted labels are pairwise distinct. */
  lemma {:induction false} PreparedLabelsDistinct(labels: seq<string>, parents: seq<string>, values: seq<real>, n: nat)
    requires n <= |labels|
    ensures NoDup(PrepareUpTo(labels, parents, values, n).labels)
  {
    if n > 0 {
      PreparedLabelsDistinct(labels, parents, values, n - 1);
      var t := PrepareUpTo(labels, parents, values, n - 1);
      if Keep(values, n - 1) {
        var u := FreshLabel(labels[n - 1], Elems(t.labels));
        FreshLabelRule(labels[n - 1], Elems(t.labels));
        var s := t.labels + [u];
        forall i, j | 0 <= i < j < |s| ensures s[i] != s[j] {
          if j == |t.labels| {
            assert s[i] in Elems(t.labels);
          }
        }
      }
    }
  }

  // ---------------------------------------------------------------------------
  // The cached result of one fetch
  // ---------------------------------------------------------------------------

  /** What `_prepareData` stores after fetching: `[]` for a non-ok response, a
      body that does not parse or a missing key; a one-trace list otherwise. */
  function FetchResult(f: Fetch): seq<Trace>
  {
    match f
    case NotOk(_) => []
    case Malformed => []
    case Body(labels, parents, values) =>
      if labels.None? || parents.None? || values.None? then []
      else [Prepare(labels.value, parents.value, values.value)]
  }

  /** A fetch yields the empty list exactly on failure; a success yields one
      aligned trace with distinct labels, even when no row passed the filter. */
  lemma FetchResultCases(f: Fetch)
    ensures FetchResult(f) == [] <==>
      !(f.Body? && f.labels.Some? && f.parents.Some? && f.values.Some?)
    ensures FetchResult(f) != [] ==>
      |FetchResult(f)| == 1 && Aligned(FetchResult(f)[0]) && NoDup(FetchResult(f)[0].labels)
  {
    if f.Body? && f.labels.Some? && f.parents.Some? && f.values.Some? {
      var labels, parents, values := f.labels.value, f.parents.value, f.values.value;
      PrepareMatchesKept(labels, parents, values, |labels|);
      PreparedLabelsDistinct(labels, parents, values, |labels|);
    }
  }

  /** When every row is filtered out, the stored list still holds one (empty)
      trace, so it is not empty for the card's `length` checks. */
  lemma AllFilteredStillOneTrace(labels: seq<string>, parents: seq<string>, values: seq<real>)
    requires forall i :: 0 <= i < |values| ==> values[i] <= Threshold
    ensures FetchResult(Body(Some(labels), Some(parents), Some(values))) == [Trace([], [], [])]
  {
    PrepareMatchesKept(labels, parents, values, |labels|);
    NoneKept(values, |labels|);
  }

  // ---------------------------------------------------------------------------
  // Worked examples
  // ---------------------------------------------------------------------------

  /** Rows 0 and 2 pass the filter; the second "A" becomes "A_1". */
  lemma ExampleFilterAndRename()
    ensures Prepare(["A", "B", "A"], ["root", "root", "root"], [6000.0, 4000.0, 7000.0])
         == Trace(["A", "A_1"], [Some("root"), Some("root")], [0.006, 0.007])
  {
    var labels, parents, values := ["A", "B", "A"], ["root", "root", "root"], [6000.0, 4000.0, 7000.0];
    assert Decimal(1) == "1";
    assert Elems<string>([]) == {};
    assert Elems(["A"]) == {"A"};
    assert FirstFree("A", {}, 0) == 0;
    assert FirstFree("A", {"A"}, 0) == FirstFree("A", {}, 1) == 1;
    assert PrepareUpTo(labels, parents, values, 1) == Trace(["A"], [Some("root")], [0.006]);
    assert PrepareUpTo(labels, parents, values, 2) == Trace(["A"], [Some("root")], [0.006]);
    assert Candidate("A", 1) == "A_1";
  }

  /** A renamed label can itself collide with a later row's label. */
  lemma ExampleRenameChain()
    ensures Prepare(["A", "A", "A_1"], ["", "", ""], [6000.0, 6000.0, 6000.0]).labels
         == ["A", "A_1", "A_1_1"]
  {
    var labels, parents, values := ["A", "A", "A_1"], ["", "", ""], [6000.0, 6000.0, 6000.0];
    assert Decimal(1) == "1";
    assert Elems<string>([]) == {};
    assert Elems(["A"]) == {"A"};
    assert Elems(["A", "A_1"]) == {"A", "A_1"};
    assert FirstFree("A", {}, 0) == 0;
    assert PrepareUpTo(labels, parents, values, 1).labels == ["A"];
    assert Candidate("A", 1) == "A_1";
    assert Candidate("A_1", 1) == "A_1_1";
    assert FirstFree("A", {"A"}, 0) == FirstFree("A", {}, 1) == 1;
    assert PrepareUpTo(labels, parents, values, 2).labels == ["A", "A_1"];
    assert FirstFree("A_1", {"A", "A_1"}, 0) == FirstFree("A_1", {"A"}, 1) == 1;
  }

  // ---------------------------------------------------------------------------
  // The card's loops
  // ---------------------------------------------------------------------------

  /** The inner `while (uniqueLabels.has(uniqueLabel))` loop. It terminates
      because the candidates are distinct and `uniqueLabels` is finite. */
  method UniqueLabel(base: string, uniqueLabels: set<string>) returns (uniqueLabel: string)
    ensures uniqueLabel == FreshLabel(base, uniqueLabels)
    ensures uniqueLabel !in uniqueLabels
  {
    FirstFreeIsLeast(base, uniqueLabels, 0);
    ghost var k := FirstFree(base, uniqueLabels, 0);
    uniqueLabel := base;
    var counter := 1;
    while uniqueLabel in uniqueLabels
      invariant 1 <= counter <= k + 1
      invariant uniqueLabel == Candidate(base, counter - 1)
      decreases k + 1 - counter
    {
      uniqueLabel := base + "_" + Decimal(counter);
      counter := counter + 1;
    }
  }

  /** The `forEach` over the rows of a body that has all three keys: pushes into
      the three columns and adds each emitted label to `uniqueLabels`. */
  method ProcessRows(labels: seq<string>, parents: seq<string>, values: seq<real>)
    returns (processed: Trace, uniqueLabels: set<string>)
    ensures processed == Prepare(labels, parents, values)
    ensures uniqueLabels == Elems(processed.labels)
    ensures Aligned(processed) && NoDup(processed.labels)
  {
    processed := Trace([], [], []);
    uniqueLabels := {};
    var index := 0;
    while index < |labels|
      invariant index <= |labels|
      invariant processed == PrepareUpTo(labels, parents, values, index)
      invariant uniqueLabels == Elems(processed.labels)
    {
      var base := labels[index];
      if index < |values| && values[index] > Threshold {
        var uniqueLabel := UniqueLabel(base, uniqueLabels);
        uniqueLabels := uniqueLabels + {uniqueLabel};
        processed := Trace(processed.labels + [uniqueLabel],
                           processed.parents + [ParentAt(parents, index)],
                           processed.values + [values[index] / BytesPerMB]);
        assert Elems(processed.labels) == uniqueLabels;
      }
      index := index + 1;
    }
    PrepareMatchesKept(labels, parents, values, |labels|);
    PreparedLabelsDistinct(labels, parents, values, |labels|);
  }
}
