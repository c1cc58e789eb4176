/**
 The offline fairness audit: users with at most five ratings are "light";
 the genres shown in the exposure logs are counted once over all users and
 once over light users only, both counters are normalised, and a divergence
 of the light distribution from the global one is summed over the light
 genres.

 The rating rows (their User_ID column) and the log entries are in-memory
 sequences. Probabilities are exact reals rather than floats, and the
 natural logarithm is a parameter.
 */
module Exposure {
  import opened Counters
  import opened SeqFacts

  type UserId = int
  type Genre = string

  /** A user with at most this many ratings is light. */
  const LightRatingThreshold: nat := 5

  /** The probability used for a light genre the global distribution lacks. */
  const Smoothing: real := 0.000000000001

  // ---------------------------------------------------------------------
  // Rating counts and light users

  /** `ratings.groupby("User_ID").size().to_dict()` over the User_ID column. */
  function RatingCounts(userIds: seq<UserId>): (counts: map<UserId, nat>)
    ensures Tallies(counts, multiset(userIds))
    decreases |userIds|
  {
    if userIds == [] then map[]
    else
      var init, last := userIds[..|userIds| - 1], userIds[|userIds| - 1];
      assert userIds == init + [last];
      Inc(RatingCounts(init), last)
  }

  /** Every rating row is counted once: the counts add up to the number of rows. */
  lemma {:induction false} RatingCountsTotal(userIds: seq<UserId>)
    ensures Total(RatingCounts(userIds)) == |userIds|
    decreases |userIds|
  {
    if userIds != [] {
      var init, last := userIds[..|userIds| - 1], userIds[|userIds| - 1];
      RatingCountsTotal(init);
      TotalInc(RatingCounts(init), last);
    }
  }

  /** `is_light`: a user absent from the ratings reads a count of 0. */
  predicate IsLight(ratingCount: map<UserId, nat>, uid: UserId)
  {
    Get(ratingCount, uid) <= LightRatingThreshold
  }

  /** A user is light iff they have at most five rating rows (five is light, six is not). */
  lemma LightIffFewRatings(userIds: seq<UserId>, uid: UserId)
    ensures IsLight(RatingCounts(userIds), uid) <==> multiset(userIds)[uid] <= LightRatingThreshold
  {
  }

  /** A user without ratings counts 0 and is light. */
  lemma AbsentUserIsLight(userIds: seq<UserId>, uid: UserId)
    requires uid !in userIds
    ensures uid !in RatingCounts(userIds) && IsLight(RatingCounts(userIds), uid)
  {
    assert multiset(userIds)[uid] == 0;
  }

  // ---------------------------------------------------------------------
  // Genre exposure counting

  /** One line of an exposure log. */
  datatype LogEntry = LogEntry(userId: UserId, genres: seq<Genre>)

  /** Every genre occurrence in the entries, repeats kept. */
  ghost function Occurrences(entries: seq<LogEntry>): multiset<Genre>
    decreases |entries|
  {
    if entries == [] then multiset{}
    else Occurrences(entries[..|entries| - 1]) + multiset(entries[|entries| - 1].genres)
  }

  /** The entries of light users, in log order. */
  function LightEntries(ratingCount: map<UserId, nat>, entries: seq<LogEntry>): (light: seq<LogEntry>)
    ensures multiset(light) <= multiset(entries)
    ensures forall i | 0 <= i < |light| :: IsLight(ratingCount, light[i].userId)
    decreases |entries|
  {
    if entries == [] then []
    else
      var init, last := entries[..|entries| - 1], entries[|entries| - 1];
      assert entries == init + [last];
      if IsLight(ratingCount, last.userId) then LightEntries(ratingCount, init) + [last]
      else LightEntries(ratingCount, init)
  }

  /**
   The filter keeps every light user's entry: each entry of a light user occurs
   among the light entries as often as in the log, and no other entry occurs.
   */
  lemma {:induction false} LightEntriesComplete(ratingCount: map<UserId, nat>, entries: seq<LogEntry>, e: LogEntry)
    ensures multiset(LightEntries(ratingCount, entries))[e]
      == if IsLight(ratingCount, e.userId) then multiset(entries)[e] else 0
    decreases |entries|
  {
    if entries != [] {
      var init, last := entries[..|entries| - 1], entries[|entries| - 1];
      assert entries == init + [last];
      LightEntriesComplete(ratingCount, init, e);
    }
  }

  /** The sum of `len(genres)` over the entries. */
  function SumLengths(entries: seq<LogEntry>): nat
    decreases |entries|
  {
    if entries == [] then 0 else SumLengths(entries[..|entries| - 1]) + |entries[|entries| - 1].genres|
  }

  /**
   The inner loop for one entry: each genre occurrence increments
   `all_genres`, and also `light_genres` when the entry's user is light.
   */
  method CountEntry(ratingCount: map<UserId, nat>, e: LogEntry, all0: map<Genre, nat>, light0: map<Genre, nat>)
    returns (all: map<Genre, nat>, light: map<Genre, nat>)
    ensures Adds(all0, all, multiset(e.genres))
    ensures IsLight(ratingCount, e.userId) ==> Adds(light0, light, multiset(e.genres))
    ensures !IsLight(ratingCount, e.userId) ==> light == light0
  {
    all, light := all0, light0;
    for j := 0 to |e.genres|
      invariant Adds(all0, all, multiset(e.genres[..j]))
      invariant IsLight(ratingCount, e.userId) ==> Adds(light0, light, multiset(e.genres[..j]))
      invariant !IsLight(ratingCount, e.userId) ==> light == light0
    {
      var g := e.genres[j];
      PrefixSnoc(e.genres, j);
      AddsInc(all0, all, multiset(e.genres[..j]), g);
      all := Inc(all, g);
      if IsLight(ratingCount, e.userId) {
        AddsInc(light0, light, multiset(e.genres[..j]), g);
        light := Inc(light, g);
      }
    }
    PrefixAll(e.genres);
  }

  /** `c` counts every genre occurrence of `entries`, and nothing else. */
  ghost predicate Counted(c: map<Genre, nat>, entries: seq<LogEntry>)
  {
    Tallies(c, Occurrences(entries)) && Total(c) == SumLengths(entries)
  }

  /** The two counters after all entries are read (the nested loops over the logs). */
  method GatherGenreCounts(ratingCount: map<UserId, nat>, entries: seq<LogEntry>)
    returns (allGenres: map<Genre, nat>, lightGenres: map<Genre, nat>)
    ensures Counted(allGenres, entries)
    ensures Counted(lightGenres, LightEntries(ratingCount, entries))
    ensures lightGenres.Keys <= allGenres.Keys
    ensures forall g | g in lightGenres :: lightGenres[g] <= allGenres[g]
    ensures entries == [] ==> allGenres == map[] && lightGenres == map[]
  {
    allGenres, lightGenres := map[], map[];
    for i := 0 to |entries|
      invariant Counted(allGenres, entries[..i])
      invariant Counted(lightGenres, LightEntries(ratingCount, entries[..i]))
    {
      var e := entries[i];
      ghost var all0, light0 := allGenres, lightGenres;
      allGenres, lightGenres := CountEntry(ratingCount, e, allGenres, lightGenres);
      GatherStep(ratingCount, entries[..i], e, all0, light0, allGenres, lightGenres);
      PrefixSnoc(entries, i);
    }
    PrefixAll(entries);
    LightOccurrencesIncluded(ratingCount, entries);
    TalliesIncluded(lightGenres, Occurrences(LightEntries(ratingCount, entries)), allGenres, Occurrences(entries));
  }

  /** The invariant of the gathering loop holds again after one more entry. */
  lemma GatherStep(ratingCount: map<UserId, nat>, done: seq<LogEntry>, e: LogEntry,
                   all0: map<Genre, nat>, light0: map<Genre, nat>, all: map<Genre, nat>, light: map<Genre, nat>)
    requires Counted(all0, done) && Counted(light0, LightEntries(ratingCount, done))
    requires Adds(all0, all, multiset(e.genres))
    requires IsLight(ratingCount, e.userId) ==> Adds(light0, light, multiset(e.genres))
    requires !IsLight(ratingCount, e.userId) ==> light == light0
    ensures Counted(all, done + [e]) && Counted(light, LightEntries(ratingCount, done + [e]))
  {
    CountedStep(all0, done, all, e);
    LightEntriesSnoc(ratingCount, done, e);
    if IsLight(ratingCount, e.userId) {
      CountedStep(light0, LightEntries(ratingCount, done), light, e);
    }
  }

  /** Counting one more entry's genres keeps a counter in step with the log. */
  lemma CountedStep(c0: map<Genre, nat>, entries: seq<LogEntry>, c: map<Genre, nat>, e: LogEntry)
    requires Counted(c0, entries) && Adds(c0, c, multiset(e.genres))
    ensures Counted(c, entries + [e])
  {
    SnocPrefix(entries, e);
    TalliesAdd(c0, Occurrences(entries), c, multiset(e.genres));
  }

  /** Appending an entry appends it to the light entries exactly when its user is light. */
  lemma LightEntriesSnoc(ratingCount: map<UserId, nat>, entries: seq<LogEntry>, e: LogEntry)
    ensures LightEntries(ratingCount, entries + [e])
      == if IsLight(ratingCount, e.userId) then LightEntries(ratingCount, entries) + [e] else LightEntries(ratingCount, entries)
  {
    SnocPrefix(entries, e);
  }

  lemma {:induction false} OccurrencesAppend(a: seq<LogEntry>, b: seq<LogEntry>)
    ensures Occurrences(a + b) == Occurrences(a) + Occurrences(b)
    decreases |b|
  {
    if b != [] {
      var b' := b[..|b| - 1];
      AppendDropLast(a, b);
      OccurrencesAppend(a, b');
    } else {
      assert a + b == a;
    }
  }

  /** Light users' occurrences are among all occurrences. */
  lemma {:induction false} LightOccurrencesIncluded(ratingCount: map<UserId, nat>, entries: seq<LogEntry>)
    ensures Occurrences(LightEntries(ratingCount, entries)) <= Occurrences(entries)
    decreases |entries|
  {
    if entries != [] {
      var init, last := entries[..|entries| - 1], entries[|entries| - 1];
      LightOccurrencesIncluded(ratingCount, init);
      if IsLight(ratingCount, last.userId) {
        var light := LightEntries(ratingCount, init);
        SnocPrefix(light, last);
      }
    }
  }

  /** The occurrences of a non-empty log: those before its last entry, and the last entry's. */
  lemma OccurrencesLast(entries: seq<LogEntry>)
    requires entries != []
    ensures Occurrences(entries) == Occurrences(entries[..|entries| - 1]) + multiset(entries[|entries| - 1].genres)
  {
  }

  /** The occurrences of a log are those of its parts around one entry. */
  lemma OccurrencesAround(entries: seq<LogEntry>, i: nat)
    requires i < |entries|
    ensures Occurrences(entries) == Occurrences(entries[..i] + entries[i + 1..]) + multiset(entries[i].genres)
  {
    var before, e, after := entries[..i], entries[i], entries[i + 1..];
    var single := Occurrences([e]);
    assert single == multiset(e.genres) by {
      assert [e][..0] == [] && [e][0] == e;
      assert Occurrences([e]) == Occurrences([e][..0]) + multiset([e][0].genres);
    }
    calc {
      Occurrences(entries);
      { RemoveAt(entries, i); }
      Occurrences((before + [e]) + after);
      { OccurrencesAppend(before + [e], after); }
      Occurrences(before + [e]) + Occurrences(after);
      { OccurrencesAppend(before, [e]); }
      Occurrences(before) + single + Occurrences(after);
      { OccurrencesAppend(before, after); }
      Occurrences(before + after) + single;
    }
  }

  /** Occurrences do not depend on the order of the entries. */
  lemma {:induction false} OccurrencesPermutation(e1: seq<LogEntry>, e2: seq<LogEntry>)
    requires multiset(e1) == multiset(e2)
    ensures Occurrences(e1) == Occurrences(e2)
    decreases |e1|
  {
    if e1 == [] {
      assert |e2| == |multiset(e2)| == 0;
    } else {
      var n := |e1| - 1;
      var last := e1[n];
      assert last in multiset(e2) by {
        assert last in e1;
      }
      var i :| 0 <= i < |e2| && e2[i] == last;
      var rest := e2[..i] + e2[i + 1..];
      RemoveMatching(e1, e2, i);
      OccurrencesPermutation(e1[..n], rest);
      OccurrencesLast(e1);
      OccurrencesAround(e2, i);
    }
  }

  /** Which entries are light does not depend on the order of the entries. */
  lemma LightEntriesPermutation(ratingCount: map<UserId, nat>, e1: seq<LogEntry>, e2: seq<LogEntry>)
    requires multiset(e1) == multiset(e2)
    ensures multiset(LightEntries(ratingCount, e1)) == multiset(LightEntries(ratingCount, e2))
  {
    forall e
      ensures multiset(LightEntries(ratingCount, e1))[e] == multiset(LightEntries(ratingCount, e2))[e]
    {
      LightEntriesComplete(ratingCount, e1, e);
      LightEntriesComplete(ratingCount, e2, e);
    }
  }

  /**
   Processing the log entries in any order yields the same two counters:
   counting is commutative.
   */
  lemma GenreCountsOrderIndependent(ratingCount: map<UserId, nat>, e1: seq<LogEntry>, e2: seq<LogEntry>,
                                    all1: map<Genre, nat>, light1: map<Genre, nat>,
                                    all2: map<Genre, nat>, light2: map<Genre, nat>)
    requires multiset(e1) == multiset(e2)
    requires Tallies(all1, Occurrences(e1)) && Tallies(light1, Occurrences(LightEntries(ratingCount, e1)))
    requires Tallies(all2, Occurrences(e2)) && Tallies(light2, Occurrences(LightEntries(ratingCount, e2)))
    ensures all1 == all2 && light1 == light2
  {
    OccurrencesPermutation(e1, e2);
    LightEntriesPermutation(ratingCount, e1, e2);
    OccurrencesPermutation(LightEntries(ratingCount, e1), LightEntries(ratingCount, e2));
    TalliesUnique(all1, all2, Occurrences(e1));
    TalliesUnique(light1, light2, Occurrences(LightEntries(ratingCount, e1)));
  }

  // ---------------------------------------------------------------------
  // Normalisation and divergence

  /** `sum(counter.values())` */
  method SumValues(counter: map<Genre, nat>) returns (total: nat)
    ensures total == Total(counter)
  {
    total := 0;
    var rest := counter;
    while rest != map[]
      invariant total + Total(rest) == Total(counter)
      decreases rest.Keys
    {
      var g :| g in rest;
      TotalRemove(rest, g);
      total := total + rest[g];
      rest := rest - {g};
    }
  }

  /**
   `to_probs`: each count divided by the counter's total. An empty counter
   gives an empty map and no division takes place.
   */
  method ToProbs(counter: map<Genre, nat>) returns (probs: map<Genre, real>)
    requires Positive(counter)
    ensures probs.Keys == counter.Keys
    ensures forall g | g in probs :: probs[g] == counter[g] as real / Total(counter) as real
    ensures forall g | g in probs :: 0.0 < probs[g] <= 1.0
  {
    var total := SumValues(counter);
    probs := map g | g in counter :: counter[g] as real / total as real;
    forall g | g in probs
      ensures 0.0 < probs[g] <= 1.0
    {
      TotalBounds(counter, g);
      RatioBounds(counter[g], total);
    }
  }

  /** A positive count over a total at least as large is a probability. */
  lemma RatioBounds(count: nat, total: nat)
    requires 0 < count <= total
    ensures 0.0 < count as real / total as real <= 1.0
  {
    var r := count as real / total as real;
    assert r * total as real == count as real;
  }

  /** `P_all.get(g, 1e-12)` */
  function Lookup(pAll: map<Genre, real>, g: Genre): (q: real)
    ensures g in pAll ==> q == pAll[g]
    ensures NonZero(pAll) ==> q != 0.0
  {
    if g in pAll then pAll[g] else Smoothing
  }

  /** Every probability in the global distribution can be divided by. */
  ghost predicate NonZero(pAll: map<Genre, real>)
  {
    forall g | g in pAll :: pAll[g] != 0.0
  }

  /** One summand `p * log(p / q)`, `ln` standing for `math.log`. */
  function Term(p: real, q: real, ln: real -> real): (t: real)
    requires q != 0.0
    ensures ln(1.0) == 0.0 && p == q ==> t == 0.0
  {
    assert p == q ==> p / q == 1.0;
    p * ln(p / q)
  }

  /** The divergence summed over the given light genres, in any order. */
  ghost function KlSum(genres: set<Genre>, pLight: map<Genre, real>, pAll: map<Genre, real>, ln: real -> real): real
    requires genres <= pLight.Keys && NonZero(pAll)
    decreases genres
  {
    if genres == {} then 0.0
    else
      var g :| g in genres;
      Term(pLight[g], Lookup(pAll, g), ln) + KlSum(genres - {g}, pLight, pAll, ln)
  }

  /** KlSum may be taken apart at any genre: the order of summation does not matter. */
  lemma {:induction false} KlSumRemove(genres: set<Genre>, pLight: map<Genre, real>, pAll: map<Genre, real>, ln: real -> real, g: Genre)
    requires genres <= pLight.Keys && NonZero(pAll) && g in genres
    ensures KlSum(genres, pLight, pAll, ln) == Term(pLight[g], Lookup(pAll, g), ln) + KlSum(genres - {g}, pLight, pAll, ln)
    decreases genres
  {
    var h :| h in genres && KlSum(genres, pLight, pAll, ln) == Term(pLight[h], Lookup(pAll, h), ln) + KlSum(genres - {h}, pLight, pAll, ln);
    if h != g {
      KlSumRemove(genres - {h}, pLight, pAll, ln, g);
      KlSumRemove(genres - {g}, pLight, pAll, ln, h);
      assert genres - {h} - {g} == genres - {g} - {h};
    }
  }

  /** The `kl` accumulation loop over the light distribution. */
  method Divergence(pLight: map<Genre, real>, pAll: map<Genre, real>, ln: real -> real) returns (kl: real)
    requires NonZero(pAll)
    requires forall g | g in pLight :: pLight[g] > 0.0
    ensures kl == KlSum(pLight.Keys, pLight, pAll, ln)
    ensures pLight == map[] ==> kl == 0.0
  {
    kl := 0.0;
    var todo := pLight.Keys;
    while todo != {}
      invariant todo <= pLight.Keys
      invariant kl + KlSum(todo, pLight, pAll, ln) == KlSum(pLight.Keys, pLight, pAll, ln)
      decreases todo
    {
      var g :| g in todo;
      var q := Lookup(pAll, g);
      KlSumRemove(todo, pLight, pAll, ln, g);
      kl := kl + Term(pLight[g], q, ln);
      todo := todo - {g};
    }
  }

  /**
   The whole audit over the User_ID column of the ratings and the exposure
   log entries. The distributions are fixed by the ratings and the multiset
   of entries, whatever their order; every
   light genre has a global probability, so the smoothing constant is never
   used; and with no genre occurrences at all (in particular with no
   entries) the result is an empty sum, 0, not a failure.
   */
  method Audit(userIds: seq<UserId>, entries: seq<LogEntry>, ln: real -> real)
    returns (pAll: map<Genre, real>, pLight: map<Genre, real>, kl: real)
    ensures forall g :: g in pAll <==> g in Occurrences(entries)
    ensures forall g | g in pAll :: SumLengths(entries) > 0 && pAll[g] == Occurrences(entries)[g] as real / SumLengths(entries) as real
    ensures var light := LightEntries(RatingCounts(userIds), entries);
      && (forall g :: g in pLight <==> g in Occurrences(light))
      && (forall g | g in pLight :: SumLengths(light) > 0 && pLight[g] == Occurrences(light)[g] as real / SumLengths(light) as real)
    ensures pLight.Keys <= pAll.Keys
    ensures NonZero(pAll) && kl == KlSum(pLight.Keys, pLight, pAll, ln)
    ensures Occurrences(LightEntries(RatingCounts(userIds), entries)) == multiset{} ==> kl == 0.0
    ensures entries == [] ==> pAll == map[] && pLight == map[] && kl == 0.0
  {
    var ratingCount := RatingCounts(userIds);
    var allGenres, lightGenres := GatherGenreCounts(ratingCount, entries);
    pAll := ToProbs(allGenres);
    pLight := ToProbs(lightGenres);
    TalliesKeys(allGenres, Occurrences(entries));
    TalliesKeys(lightGenres, Occurrences(LightEntries(ratingCount, entries)));
    kl := Divergence(pLight, pAll, ln);
  }
}
