/** The column resolver (`find_best_column_matches`): maps each of the six required
    field names to one of the sheet's own column labels. The similarity score that
    `difflib.SequenceMatcher.ratio` computes is not modelled; it is the parameter `sim`,
    where `sim(word, x)` is the score of candidate `x` for `word`. The way
    `difflib.get_close_matches(word, keys, n=1, cutoff=0.6)` picks a candidate from
    those scores is modelled exactly. */
module Columns {
  import opened Wrappers
  import opened Text

  /** A column label: the resolver considers only the labels that are strings. */
  datatype Header = Label(text: string) | Unlabelled

  const REQUIRED_COLUMNS: seq<string> :=
    ["serial", "total qty", "spare qty", "item no.", "description", "unit price ($)"]

  /** The similarity floor passed to `get_close_matches`. */
  const CUTOFF: real := 0.6

  /** `col.lower().strip()`. */
  function Normalize(s: string): string {
    Strip(Lower(s))
  }

  /** The `normalized` dict: normalised label to label, a later column winning a clash. */
  function NormalizedIndex(headers: seq<Header>): map<string, string> {
    if headers == [] then map[]
    else
      var index := NormalizedIndex(headers[..|headers| - 1]);
      match headers[|headers| - 1]
      case Label(t) => index[Normalize(t) := t]
      case Unlabelled => index
  }

  /** The normalised string labels in column order: the words the matcher scores. */
  function Keys(headers: seq<Header>): seq<string> {
    if headers == [] then []
    else
      var keys := Keys(headers[..|headers| - 1]);
      match headers[|headers| - 1]
      case Label(t) => keys + [Normalize(t)]
      case Unlabelled => keys
  }

  /** The dict has an entry for exactly the normalised labels the matcher scores. */
  lemma {:induction false} IndexKeys(headers: seq<Header>)
    ensures forall k :: k in NormalizedIndex(headers) <==> k in Keys(headers)
  {
    if headers != [] {
      IndexKeys(headers[..|headers| - 1]);
    }
  }

  /** Each entry of the dict is a label of the sheet that normalises to its key, and
      every label of the sheet has its entry. */
  lemma {:induction false} IndexCharacterised(headers: seq<Header>, k: string)
    ensures k in NormalizedIndex(headers) <==> exists t :: Label(t) in headers && Normalize(t) == k
    ensures k in NormalizedIndex(headers) ==>
      Label(NormalizedIndex(headers)[k]) in headers && Normalize(NormalizedIndex(headers)[k]) == k
  {
    if headers != [] {
      var n := |headers| - 1;
      var prefix := headers[..n];
      IndexCharacterised(prefix, k);
      assert headers == prefix + [headers[n]];
      if k in NormalizedIndex(headers) {
        if headers[n].Label? && Normalize(headers[n].text) == k {
          assert Label(headers[n].text) in headers;
        } else {
          assert k in NormalizedIndex(prefix);
          var t :| Label(t) in prefix && Normalize(t) == k;
          assert Label(t) in headers;
        }
      } else {
        forall t | Label(t) in headers ensures Normalize(t) != k {
          if Label(t) != headers[n] {
            assert Label(t) in prefix;
          }
        }
      }
    }
  }

  /** When several string labels normalise to `k`, the entry is the label of the last
      such column. */
  lemma {:induction false} IndexLastWins(headers: seq<Header>, k: string)
    requires k in NormalizedIndex(headers)
    ensures exists i :: && 0 <= i < |headers| && headers[i] == Label(NormalizedIndex(headers)[k])
                        && forall j :: i < j < |headers| && headers[j].Label? ==> Normalize(headers[j].text) != k
  {
    var n := |headers| - 1;
    var prefix := headers[..n];
    if headers[n].Label? && Normalize(headers[n].text) == k {
      assert headers[n] == Label(NormalizedIndex(headers)[k]);
    } else {
      assert k in NormalizedIndex(prefix) && NormalizedIndex(headers)[k] == NormalizedIndex(prefix)[k];
      IndexLastWins(prefix, k);
      var i :| && 0 <= i < n && prefix[i] == Label(NormalizedIndex(prefix)[k])
               && forall j :: i < j < n && prefix[j].Label? ==> Normalize(prefix[j].text) != k;
      assert headers[i] == prefix[i];
      forall j | i < j < |headers| && headers[j].Label? ensures Normalize(headers[j].text) != k {
        if j < n {
          assert headers[j] == prefix[j];
        }
      }
    }
  }

  /** `a` ranks above `b` as a match for `word`: a higher score, or the same score
      and a larger string (`heapq.nlargest` ranks `(score, x)` pairs as tuples). */
  predicate Better(sim: (string, string) -> real, word: string, a: string, b: string) {
    sim(word, a) > sim(word, b) || (sim(word, a) == sim(word, b) && Less(b, a))
  }

  lemma BetterIsStrictOrder(sim: (string, string) -> real, word: string, a: string, b: string, c: string)
    ensures !Better(sim, word, a, a)
    ensures Better(sim, word, a, b) && Better(sim, word, b, c) ==> Better(sim, word, a, c)
    ensures a != b ==> Better(sim, word, a, b) || Better(sim, word, b, a)
    ensures Better(sim, word, a, b) ==> !Better(sim, word, b, a)
  {
    LessIrreflexive(a);
    LessTrichotomy(a, b);
    if Less(c, b) && Less(b, a) {
      LessTransitive(c, b, a);
    }
    if Less(b, a) {
      LessAsymmetric(b, a);
    }
  }

  /** `get_close_matches(word, candidates, n=1, cutoff=0.6)`: the best-ranked candidate
      whose score reaches the cutoff, or nothing when none does. */
  function CloseMatch(sim: (string, string) -> real, word: string, candidates: seq<string>): (r: Option<string>)
    ensures r.None? <==> forall c :: c in candidates ==> sim(word, c) < CUTOFF
    ensures r.Some? ==> r.value in candidates && sim(word, r.value) >= CUTOFF
    ensures r.Some? ==>
      forall c :: c in candidates && sim(word, c) >= CUTOFF ==> !Better(sim, word, c, r.value)
  {
    if candidates == [] then None
    else
      var rest := CloseMatch(sim, word, candidates[1..]);
      var c := candidates[0];
      assert forall x :: x in candidates ==> x == c || x in candidates[1..];
      if sim(word, c) < CUTOFF then rest
      else if rest.None? || Better(sim, word, c, rest.value) then
        assert forall x :: x in candidates[1..] && sim(word, x) >= CUTOFF ==> !Better(sim, word, x, c) by {
          forall x | x in candidates[1..] && sim(word, x) >= CUTOFF ensures !Better(sim, word, x, c) {
            BetterIsStrictOrder(sim, word, x, c, rest.value);
          }
        }
        BetterIsStrictOrder(sim, word, c, c, c);
        Some(c)
      else
        BetterIsStrictOrder(sim, word, c, rest.value, c);
        rest
  }

  /** The match depends only on which candidates there are, not on their order or
      repetition. */
  lemma CloseMatchSetDetermined(sim: (string, string) -> real, word: string, c1: seq<string>, c2: seq<string>)
    requires forall x :: x in c1 <==> x in c2
    ensures CloseMatch(sim, word, c1) == CloseMatch(sim, word, c2)
  {
    var r1, r2 := CloseMatch(sim, word, c1), CloseMatch(sim, word, c2);
    if r1.Some? && r2.Some? {
      BetterIsStrictOrder(sim, word, r1.value, r2.value, r1.value);
    }
  }

  /** The position of the first target with no close match, or `|targets|`. */
  function FirstUnmatched(sim: (string, string) -> real, keys: seq<string>, targets: seq<string>): (j: nat)
    ensures j <= |targets|
    ensures forall i :: 0 <= i < j ==> CloseMatch(sim, targets[i], keys).Some?
    ensures j < |targets| ==> CloseMatch(sim, targets[j], keys).None?
  {
    if targets == [] || CloseMatch(sim, targets[0], keys).None? then 0
    else 1 + FirstUnmatched(sim, keys, targets[1..])
  }

  /** What `find_best_column_matches` returns for the required names `targets`, or the
      target named by the error it raises: the first one without a close match. */
  function ResolveTargets(sim: (string, string) -> real, headers: seq<Header>, targets: seq<string>)
    : (r: Result<map<string, string>, string>)
    ensures r.Ok? <==> forall t :: t in targets ==> CloseMatch(sim, t, Keys(headers)).Some?
    ensures r.Ok? ==> r.value.Keys == set t | t in targets
    ensures r.Ok? ==> forall t :: t in r.value ==>
      Label(r.value[t]) in headers && Normalize(r.value[t]) == CloseMatch(sim, t, Keys(headers)).value
    ensures r.Err? ==>
      exists j :: && 0 <= j < |targets| && targets[j] == r.error
                  && CloseMatch(sim, r.error, Keys(headers)).None?
                  && (forall i :: 0 <= i < j ==> CloseMatch(sim, targets[i], Keys(headers)).Some?)
  {
    var keys := Keys(headers);
    var j := FirstUnmatched(sim, keys, targets);
    if j < |targets| then
      assert targets[j] in targets && CloseMatch(sim, targets[j], keys).None?;
      Err(targets[j])
    else
      assert forall t :: t in targets ==> CloseMatch(sim, t, keys).Some?;
      Ok(Matches(sim, headers, targets))
  }

  /** The `matches` dict once every target has a close match: each target to the label
      its match came from. */
  function Matches(sim: (string, string) -> real, headers: seq<Header>, targets: seq<string>): (m: map<string, string>)
    requires forall t :: t in targets ==> CloseMatch(sim, t, Keys(headers)).Some?
    ensures m.Keys == set t | t in targets
    ensures forall t :: t in m ==>
      Label(m[t]) in headers && Normalize(m[t]) == CloseMatch(sim, t, Keys(headers)).value
  {
    IndexKeys(headers);
    var index, keys := NormalizedIndex(headers), Keys(headers);
    var m := map t | t in targets :: index[CloseMatch(sim, t, keys).value];
    assert forall t :: t in m ==> Label(m[t]) in headers && Normalize(m[t]) == CloseMatch(sim, t, keys).value by {
      forall t | t in m ensures Label(m[t]) in headers && Normalize(m[t]) == CloseMatch(sim, t, keys).value {
        IndexCharacterised(headers, CloseMatch(sim, t, keys).value);
      }
    }
    m
  }

  /** The resolution of the six required names. */
  function Resolve(sim: (string, string) -> real, headers: seq<Header>): Result<map<string, string>, string> {
    ResolveTargets(sim, headers, REQUIRED_COLUMNS)
  }

  /** `find_best_column_matches`: fills `matches` target by target and stops with the
      error at the first target that has no close match. */
  method FindBestColumnMatches(sim: (string, string) -> real, headers: seq<Header>)
    returns (r: Result<map<string, string>, string>)
    ensures r == Resolve(sim, headers)
  {
    r := MatchEach(sim, headers, REQUIRED_COLUMNS);
  }

  /** The loop of `find_best_column_matches` over the required names `targets`. */
  method MatchEach(sim: (string, string) -> real, headers: seq<Header>, targets: seq<string>)
    returns (r: Result<map<string, string>, string>)
    ensures r == ResolveTargets(sim, headers, targets)
  {
    var normalized := NormalizedIndex(headers);
    var keys := Keys(headers);
    var matches: map<string, string> := map[];
    IndexKeys(headers);
    var i := 0;
    while i < |targets|
      invariant i <= |targets|
      invariant forall j :: 0 <= j < i ==> CloseMatch(sim, targets[j], keys).Some?
      invariant forall t :: t in matches <==> t in targets[..i]
      invariant forall t :: t in matches ==>
        CloseMatch(sim, t, keys).Some? && matches[t] == normalized[CloseMatch(sim, t, keys).value]
    {
      var target := targets[i];
      var closeMatches := CloseMatch(sim, target, keys);
      if closeMatches.None? {
        FirstUnmatchedAt(sim, keys, targets, i);
        return Err(target);
      }
      matches := matches[target := normalized[closeMatches.value]];
      i := i + 1;
      assert targets[..i] == targets[..i - 1] + [target];
    }
    assert targets[..i] == targets;
    ResolvedAs(sim, headers, targets, matches);
    return Ok(matches);
  }

  /** A map that sends every target to the label of its close match is the resolution. */
  lemma ResolvedAs(sim: (string, string) -> real, headers: seq<Header>, targets: seq<string>, m: map<string, string>)
    requires forall t :: t in m <==> t in targets
    requires forall t :: t in m ==>
      CloseMatch(sim, t, Keys(headers)).Some? &&
      CloseMatch(sim, t, Keys(headers)).value in NormalizedIndex(headers) &&
      m[t] == NormalizedIndex(headers)[CloseMatch(sim, t, Keys(headers)).value]
    ensures ResolveTargets(sim, headers, targets) == Ok(m)
  {
    assert FirstUnmatched(sim, Keys(headers), targets) == |targets|;
    assert Matches(sim, headers, targets) == m;
  }

  lemma {:induction false} FirstUnmatchedAt(sim: (string, string) -> real, keys: seq<string>, targets: seq<string>, i: nat)
    requires i <= |targets|
    requires forall j :: 0 <= j < i ==> CloseMatch(sim, targets[j], keys).Some?
    requires i < |targets| ==> CloseMatch(sim, targets[i], keys).None?
    ensures FirstUnmatched(sim, keys, targets) == i
  {
    if i > 0 {
      FirstUnmatchedAt(sim, keys, targets[1..], i - 1);
    }
  }

  /** Columns whose label is not a string are ignored. */
  lemma {:induction false} UnlabelledIgnored(sim: (string, string) -> real, a: seq<Header>, b: seq<Header>)
    ensures Resolve(sim, a + [Unlabelled] + b) == Resolve(sim, a + b)
  {
    IgnoredInIndex(a, b);
  }

  lemma {:induction false} IgnoredInIndex(a: seq<Header>, b: seq<Header>)
    ensures NormalizedIndex(a + [Unlabelled] + b) == NormalizedIndex(a + b)
    ensures Keys(a + [Unlabelled] + b) == Keys(a + b)
  {
    if b == [] {
      assert a + [Unlabelled] + b == a + [Unlabelled];
      assert (a + [Unlabelled])[..|a|] == a;
      assert a + b == a;
    } else {
      var n := |b| - 1;
      IgnoredInIndex(a, b[..n]);
      assert (a + [Unlabelled] + b)[..|a| + 1 + n] == a + [Unlabelled] + b[..n];
      assert (a + b)[..|a| + n] == a + b[..n];
    }
  }

  /** Reordering the columns does not change the resolution, as long as no two
      different labels normalise to the same key. */
  lemma OrderIndependent(sim: (string, string) -> real, h1: seq<Header>, h2: seq<Header>)
    requires multiset(h1) == multiset(h2)
    requires forall s, t :: Label(s) in h1 && Label(t) in h1 && Normalize(s) == Normalize(t) ==> s == t
    ensures Resolve(sim, h1) == Resolve(sim, h2)
  {
    forall x ensures x in h1 <==> x in h2 {
      assert x in h1 <==> x in multiset(h1);
      assert x in h2 <==> x in multiset(h2);
    }
    var i1, i2 := NormalizedIndex(h1), NormalizedIndex(h2);
    forall k ensures k in i1 <==> k in i2 {
      IndexCharacterised(h1, k);
      IndexCharacterised(h2, k);
    }
    forall k | k in i1 ensures i1[k] == i2[k] {
      IndexCharacterised(h1, k);
      IndexCharacterised(h2, k);
    }
    assert i1 == i2;
    IndexKeys(h1);
    IndexKeys(h2);
    forall t ensures CloseMatch(sim, t, Keys(h1)) == CloseMatch(sim, t, Keys(h2)) {
      CloseMatchSetDetermined(sim, t, Keys(h1), Keys(h2));
    }
    SameMatchesSameResolution(sim, h1, h2, REQUIRED_COLUMNS);
  }

  lemma SameMatchesSameResolution(sim: (string, string) -> real, h1: seq<Header>, h2: seq<Header>, targets: seq<string>)
    requires NormalizedIndex(h1) == NormalizedIndex(h2)
    requires forall t :: CloseMatch(sim, t, Keys(h1)) == CloseMatch(sim, t, Keys(h2))
    ensures ResolveTargets(sim, h1, targets) == ResolveTargets(sim, h2, targets)
  {
    FirstUnmatchedSameMatches(sim, Keys(h1), Keys(h2), targets);
    if ResolveTargets(sim, h1, targets).Ok? {
      assert Matches(sim, h1, targets) == Matches(sim, h2, targets);
    }
  }

  lemma {:induction false} FirstUnmatchedSameMatches(sim: (string, string) -> real, k1: seq<string>, k2: seq<string>, targets: seq<string>)
    requires forall t :: CloseMatch(sim, t, k1) == CloseMatch(sim, t, k2)
    ensures FirstUnmatched(sim, k1, targets) == FirstUnmatched(sim, k2, targets)
  {
    if targets != [] {
      FirstUnmatchedSameMatches(sim, k1, k2, targets[1..]);
    }
  }
}
