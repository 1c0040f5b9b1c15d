/**
 * The "my ratings" page (pages/entries.tsx): reading the connected account's own
 * rating of each place through a fallback list of read functions, reading the
 * place's average, keeping the rated places, filtering and sorting them, and the
 * star and trend annotations drawn for each.
 *
 * Averages are kept as the contract's x100 integer, so 4.25 stars is 425.
 */
module Entries {
  import opened Wrappers
  import opened JsValues
  import opened Contract
  import opened Glyphs

  // ---------------------------------------------------------------------------
  // Reading my rating: the fallback probe

  /** The read functions tried for "my rating", in order: the current ABI, then two older names. */
  const CandidateNames: seq<string> := ["getUserRating", "ratingOf", "userRatings"]

  function Candidates(addr: Address, placeId: int): (cs: seq<ReadCall>)
    ensures |cs| == |CandidateNames|
    ensures forall i :: 0 <= i < |cs| ==> cs[i] == ReadCall(CandidateNames[i], [Addr(addr), Uint(placeId)])
    ensures forall i :: 0 <= i < |cs| ==> cs[i].fn != AverageCall(placeId).fn
  {
    [ ReadCall("getUserRating", [Addr(addr), Uint(placeId)]),
      ReadCall("ratingOf", [Addr(addr), Uint(placeId)]),
      ReadCall("userRatings", [Addr(addr), Uint(placeId)]) ]
  }

  /**
   * What one candidate's outcome yields: `Number(out)` when `out` is a bigint or a
   * number (NaN included), `Number(out[0])` when it is a non-empty array, and
   * nothing when the call threw or returned any other shape.
   */
  function Usable(o: ReadOutcome): (r: Option<Numeric>)
    ensures o.Threw? ==> r.None?
    ensures o.Returned? && (o.value.BigInt? || o.value.Num?) ==> r == Some(Finite(o.value.n))
    ensures o == Returned(NaN) ==> r == Some(NotANumber)
    ensures o.Returned? && o.value.Arr? ==> (r.Some? <==> |o.value.items| > 0)
    ensures o.Returned? && o.value.Arr? && |o.value.items| > 0 ==> r == Some(ToNumber(o.value.items[0]))
    ensures o.Returned? && (o.value.Null? || o.value.Undefined? || o.value.Bool? || o.value.Text?) ==> r.None?
  {
    match o
    case Threw => None
    case Returned(out) =>
      if out.BigInt? || out.Num? || out.NaN? then Some(ToNumber(out))
      else if out.Arr? && |out.items| > 0 then Some(ToNumber(out.items[0]))
      else None
  }

  /** Index of the first candidate whose outcome is usable, or |cs| when there is none. */
  function FirstUsable(chain: Chain, cs: seq<ReadCall>): (k: nat)
    ensures k <= |cs|
    ensures forall j :: 0 <= j < k ==> Usable(chain(cs[j])).None?
    ensures k < |cs| ==> Usable(chain(cs[k])).Some?
  {
    if cs == [] then 0
    else if Usable(chain(cs[0])).Some? then 0
    else 1 + FirstUsable(chain, cs[1..])
  }

  /** `readMyRating`: the first usable candidate's value, or null when none is usable. */
  function MyRating(chain: Chain, addr: Address, placeId: int): (r: Option<Numeric>)
    ensures r.None? <==> forall j :: 0 <= j < |CandidateNames| ==> Usable(chain(Candidates(addr, placeId)[j])).None?
    ensures r.Some? ==> exists j :: 0 <= j < |CandidateNames| && r == Usable(chain(Candidates(addr, placeId)[j]))
  {
    var cs := Candidates(addr, placeId);
    var k := FirstUsable(chain, cs);
    if k < |cs| then Usable(chain(cs[k])) else None
  }

  /** The calls `readMyRating` issues: the candidates up to and including the first usable one. */
  function MyRatingCalls(chain: Chain, addr: Address, placeId: int): (tried: seq<ReadCall>)
    ensures 1 <= |tried| <= |CandidateNames|
    ensures tried == Candidates(addr, placeId)[..|tried|]
    ensures forall j :: 0 <= j < |tried| - 1 ==> Usable(chain(tried[j])).None?
    ensures MyRating(chain, addr, placeId) == Usable(chain(tried[|tried| - 1]))
    ensures MyRating(chain, addr, placeId).None? ==> tried == Candidates(addr, placeId)
  {
    var cs := Candidates(addr, placeId);
    var k := FirstUsable(chain, cs);
    cs[..if k < |cs| then k + 1 else |cs|]
  }

  /**
   * `readMyRating`: try each candidate in order, stop at the first usable result.
   * Returns the rating and the calls made.
   */
  method ReadMyRating(chain: Chain, addr: Address, placeId: int) returns (my: Option<Numeric>, tried: seq<ReadCall>)
    ensures my == MyRating(chain, addr, placeId)
    ensures tried == MyRatingCalls(chain, addr, placeId)
  {
    var cs := Candidates(addr, placeId);
    tried := [];
    var i := 0;
    while i < |cs|
      invariant 0 <= i <= |cs|
      invariant i <= FirstUsable(chain, cs)
      invariant tried == cs[..i]
    {
      var out := chain(cs[i]);
      tried := tried + [cs[i]];
      if out.Returned? {
        var v := out.value;
        if v.BigInt? || v.Num? || v.NaN? {
          return Some(ToNumber(v)), tried;
        }
        if v.Arr? && |v.items| > 0 {
          return Some(ToNumber(v.items[0])), tried;
        }
      }
      i := i + 1;
    }
    my := None;
  }

  /** When only the second candidate answers, its value is used and the third is never tried. */
  lemma OnlySecondCandidateAnswers(chain: Chain, addr: Address, placeId: int)
    requires Usable(chain(Candidates(addr, placeId)[0])).None?
    requires Usable(chain(Candidates(addr, placeId)[1])).Some?
    ensures MyRating(chain, addr, placeId) == Usable(chain(Candidates(addr, placeId)[1]))
    ensures MyRatingCalls(chain, addr, placeId) == Candidates(addr, placeId)[..2]
  {
    var cs := Candidates(addr, placeId);
    var k := FirstUsable(chain, cs);
    assert k == 1;
  }

  // ---------------------------------------------------------------------------
  // Reading the average

  /**
   * `readAverage`, as the x100 value: null when the read throws or the coerced
   * value is not a number; a bigint is taken as is, any other falsy value is 0.
   */
  function ReadAverage(o: ReadOutcome): (r: Option<int>)
    ensures o.Threw? ==> r.None?
    ensures o.Returned? && (o.value.BigInt? || o.value.Num?) ==> r == Some(o.value.n)
    ensures o.Returned? && !Truthy(o.value) ==> r == Some(0)
    ensures o.Returned? && Truthy(o.value) && !o.value.BigInt? ==> (r.None? <==> ToNumber(o.value) == NotANumber)
  {
    match o
    case Threw => None
    case Returned(x100) =>
      var n := if x100.BigInt? then Finite(x100.n) else if Truthy(x100) then ToNumber(x100) else Finite(0);
      if n.Finite? then Some(n.n) else None
  }

  /**
   * The three copies of the average read agree on every decoded integer; they
   * differ on a failed read, where this page shows nothing and the others show 0.
   */
  lemma AverageReadersAgree(o: ReadOutcome)
    ensures o.Returned? && (o.value.BigInt? || o.value.Num?) ==>
      ReadAverage(o) == Some(o.value.n) && AverageOrZero(o) == Finite(o.value.n)
    ensures o.Threw? ==> ReadAverage(o) == None && AverageOrZero(o) == Finite(0)
    ensures ReadAverage(o).Some? && o.Returned? && Truthy(o.value) ==> AverageOrZero(o) == Finite(ReadAverage(o).value)
  {
  }

  // ---------------------------------------------------------------------------
  // Collecting, filtering and sorting the rated places

  /** `MyPlaceRating`: a place I rated, my score, and the place's average (x100) if it could be read. */
  datatype MyPlaceRating = MyPlaceRating(placeId: int, my: int, avg: Option<int>)

  /** `my && my > 0`: a rating that is present, a number, and positive. */
  predicate Kept(my: Option<Numeric>): (r: bool)
    ensures r <==> my.Some? && my.value.Finite? && my.value.n > 0
  {
    my.Some? && NumericTruthy(my.value) && my.value.n > 0
  }

  /** `safeGetPlaces(limit)`: the first max(0, limit) places. */
  function SafeGetPlaces(places: seq<Place>, limit: int): (r: seq<Place>)
    ensures |r| == if limit <= 0 then 0 else if limit < |places| then limit else |places|
    ensures r == places[..|r|]
  {
    var n := if limit <= 0 then 0 else if limit < |places| then limit else |places|;
    places[..n]
  }

  /** The entry pushed for a kept place. */
  function EntryFor(chain: Chain, addr: Address, p: Place): MyPlaceRating
    requires Kept(MyRating(chain, addr, p.id))
  {
    MyPlaceRating(p.id, MyRating(chain, addr, p.id).value.n, ReadAverage(chain(AverageCall(p.id))))
  }

  /** `res` after the loop over `chunk`. */
  function Collected(chain: Chain, addr: Address, chunk: seq<Place>): (r: seq<MyPlaceRating>)
    ensures |r| <= |chunk|
    ensures forall i :: 0 <= i < |r| ==> r[i].my > 0
    ensures forall e :: e in r <==> exists p :: p in chunk && Kept(MyRating(chain, addr, p.id)) && e == EntryFor(chain, addr, p)
  {
    if chunk == [] then []
    else
      var init := chunk[..|chunk| - 1];
      var p := chunk[|chunk| - 1];
      assert chunk == init + [p];
      var rest := Collected(chain, addr, init);
      if Kept(MyRating(chain, addr, p.id)) then rest + [EntryFor(chain, addr, p)] else rest
  }

  /** Collecting follows the order of the places: collecting a concatenation concatenates. */
  lemma {:induction false} CollectedAppend(chain: Chain, addr: Address, a: seq<Place>, b: seq<Place>)
    ensures Collected(chain, addr, a + b) == Collected(chain, addr, a) + Collected(chain, addr, b)
  {
    if b == [] {
      assert a + b == a;
    } else {
      var b' := b[..|b| - 1];
      assert (a + b)[..|a + b| - 1] == a + b';
      assert (a + b)[|a + b| - 1] == b[|b| - 1];
      CollectedAppend(chain, addr, a, b');
    }
  }

  /** Whether `c` is one of the reads the loop makes for place `p`. */
  predicate ReadFor(chain: Chain, addr: Address, p: Place, c: ReadCall) {
    c in Candidates(addr, p.id) || (c == AverageCall(p.id) && Kept(MyRating(chain, addr, p.id)))
  }

  /** The reads of `init` followed by reads made for `p` are reads made for `init + [p]`. */
  lemma ReadsAppend(chain: Chain, addr: Address, init: seq<Place>, p: Place, rest: seq<ReadCall>, more: seq<ReadCall>)
    requires forall c :: c in rest ==> exists q :: q in init && ReadFor(chain, addr, q, c)
    requires forall c :: c in more ==> ReadFor(chain, addr, p, c)
    ensures forall c :: c in rest + more ==> exists q :: q in init + [p] && ReadFor(chain, addr, q, c)
  {
    forall c | c in rest + more ensures exists q :: q in init + [p] && ReadFor(chain, addr, q, c) {
      if c in rest {
        var q :| q in init && ReadFor(chain, addr, q, c);
        assert q in init + [p];
      } else {
        assert p in init + [p];
      }
    }
  }

  /** The reads `fetchEntries` issues for `chunk`: per place, the probe, then the average if kept. */
  function EntriesReads(chain: Chain, addr: Address, chunk: seq<Place>): (r: seq<ReadCall>)
    ensures forall c :: c in r ==> exists p :: p in chunk && ReadFor(chain, addr, p, c)
  {
    if chunk == [] then []
    else
      var init := chunk[..|chunk| - 1];
      var p := chunk[|chunk| - 1];
      assert chunk == init + [p];
      var rest := EntriesReads(chain, addr, init);
      var tried := MyRatingCalls(chain, addr, p.id);
      var average := if Kept(MyRating(chain, addr, p.id)) then [AverageCall(p.id)] else [];
      ReadsAppend(chain, addr, init, p, rest, tried + average);
      rest + (tried + average)
  }

  /** One more place of the chunk: its entry (if kept) and its reads are appended. */
  lemma CollectStep(chain: Chain, addr: Address, chunk: seq<Place>, i: nat)
    requires i < |chunk|
    ensures var p := chunk[i];
      Collected(chain, addr, chunk[..i + 1])
        == Collected(chain, addr, chunk[..i]) + (if Kept(MyRating(chain, addr, p.id)) then [EntryFor(chain, addr, p)] else [])
    ensures var p := chunk[i];
      EntriesReads(chain, addr, chunk[..i + 1])
        == EntriesReads(chain, addr, chunk[..i]) + MyRatingCalls(chain, addr, p.id)
           + (if Kept(MyRating(chain, addr, p.id)) then [AverageCall(p.id)] else [])
  {
    assert chunk[..i + 1][..i] == chunk[..i];
  }

  /** Only kept places have their average read. */
  lemma AverageReadOnlyForKept(chain: Chain, addr: Address, chunk: seq<Place>, c: ReadCall)
    requires c in EntriesReads(chain, addr, chunk)
    requires c.fn == "getAverageX100"
    ensures exists p :: p in chunk && Kept(MyRating(chain, addr, p.id)) && c == AverageCall(p.id)
  {
    var p :| p in chunk && ReadFor(chain, addr, p, c);
  }

  /** The page's filter select. */
  datatype RatingFilter = All | FourPlus | Five

  /** `filter === "5" ? my === 5 : filter === "4plus" ? my >= 4 : true`. */
  predicate Admits(f: RatingFilter, my: int): (r: bool)
    ensures f == All ==> r
    ensures my == 5 ==> r
    ensures r && f != All ==> my >= 4
    ensures r && f == Five ==> my == 5
    ensures f == FourPlus ==> (r <==> my >= 4)
    ensures f == Five ==> (r <==> my == 5)
  {
    match f
    case Five => my == 5
    case FourPlus => my >= 4
    case All => true
  }

  /** `res.filter(..)`. */
  function FilterEntries(xs: seq<MyPlaceRating>, f: RatingFilter): (r: seq<MyPlaceRating>)
    ensures |r| <= |xs|
    ensures forall e :: e in r <==> e in xs && Admits(f, e.my)
  {
    if xs == [] then []
    else (if Admits(f, xs[0].my) then [xs[0]] else []) + FilterEntries(xs[1..], f)
  }

  /** The entries whose score is `k`, in order: used to state that sorting is stable. */
  function WithScore(xs: seq<MyPlaceRating>, k: int): seq<MyPlaceRating> {
    if xs == [] then []
    else (if xs[0].my == k then [xs[0]] else []) + WithScore(xs[1..], k)
  }

  lemma {:induction false} FilterWithScore(xs: seq<MyPlaceRating>, f: RatingFilter, k: int)
    ensures WithScore(FilterEntries(xs, f), k) == if Admits(f, k) then WithScore(xs, k) else []
  {
    if xs != [] {
      FilterWithScore(xs[1..], f, k);
      var head := if Admits(f, xs[0].my) then [xs[0]] else [];
      WithScoreAppend(head, FilterEntries(xs[1..], f), k);
    }
  }

  lemma {:induction false} WithScoreAppend(a: seq<MyPlaceRating>, b: seq<MyPlaceRating>, k: int)
    ensures WithScore(a + b, k) == WithScore(a, k) + WithScore(b, k)
  {
    if a == [] {
      assert a + b == b;
    } else {
      var ab := a + b;
      assert ab[0] == a[0] && ab[1..] == a[1..] + b;
      WithScoreAppend(a[1..], b, k);
      assert WithScore(ab, k) == (if a[0].my == k then [a[0]] else []) + WithScore(a[1..] + b, k);
    }
  }

  /** The page's order select: "asc" puts low scores first, "desc" high scores first. */
  datatype SortOrder = Asc | Desc

  /** Whether `a` may stand before `b`: the comparator `a.my - b.my` (asc) or `b.my - a.my` (desc) is not positive. */
  predicate Precedes(o: SortOrder, a: MyPlaceRating, b: MyPlaceRating) {
    if o == Asc then a.my <= b.my else a.my >= b.my
  }

  predicate Sorted(o: SortOrder, s: seq<MyPlaceRating>) {
    forall i, j :: 0 <= i < j < |s| ==> Precedes(o, s[i], s[j])
  }

  /** Insert `x` before the first element it may precede. */
  function Insert(o: SortOrder, x: MyPlaceRating, s: seq<MyPlaceRating>): (r: seq<MyPlaceRating>)
    ensures |r| == |s| + 1
  {
    if s == [] || Precedes(o, x, s[0]) then [x] + s
    else [s[0]] + Insert(o, x, s[1..])
  }

  /**
   * `[...filtered].sort(cmp)`: a stable sort (as `Array.prototype.sort` is), written
   * as an insertion sort; its result is fixed by the lemma SortEntriesCorrect.
   */
  function SortEntries(o: SortOrder, xs: seq<MyPlaceRating>): (r: seq<MyPlaceRating>)
    ensures |r| == |xs|
  {
    if xs == [] then [] else Insert(o, xs[0], SortEntries(o, xs[1..]))
  }

  lemma {:induction false} SortedTail(o: SortOrder, s: seq<MyPlaceRating>)
    requires s != [] && Sorted(o, s)
    ensures Sorted(o, s[1..])
  {
    var t := s[1..];
    forall i, j | 0 <= i < j < |t| ensures Precedes(o, t[i], t[j]) {
      assert t[i] == s[i + 1] && t[j] == s[j + 1];
    }
  }

  lemma {:induction false} InsertPermutes(o: SortOrder, x: MyPlaceRating, s: seq<MyPlaceRating>)
    ensures multiset(Insert(o, x, s)) == multiset(s) + multiset{x}
  {
    if s != [] && !Precedes(o, x, s[0]) {
      InsertPermutes(o, x, s[1..]);
      assert s == [s[0]] + s[1..];
    }
  }

  lemma {:induction false} InsertWithScore(o: SortOrder, x: MyPlaceRating, s: seq<MyPlaceRating>, k: int)
    ensures WithScore(Insert(o, x, s), k) == (if x.my == k then [x] else []) + WithScore(s, k)
  {
    if s == [] || Precedes(o, x, s[0]) {
      WithScoreCons(x, s, k);
    } else {
      InsertWithScore(o, x, s[1..], k);
      WithScoreCons(s[0], Insert(o, x, s[1..]), k);
      WithScoreCons(s[0], s[1..], k);
      assert s == [s[0]] + s[1..];
      assert x.my != s[0].my;
    }
  }

  lemma WithScoreCons(x: MyPlaceRating, s: seq<MyPlaceRating>, k: int)
    ensures WithScore([x] + s, k) == (if x.my == k then [x] else []) + WithScore(s, k)
  {
    assert ([x] + s)[1..] == s;
  }

  lemma {:induction false} InsertSorted(o: SortOrder, x: MyPlaceRating, s: seq<MyPlaceRating>)
    requires Sorted(o, s)
    ensures Sorted(o, Insert(o, x, s))
  {
    if s == [] || Precedes(o, x, s[0]) {
      var r := [x] + s;
      forall i, j | 0 <= i < j < |r| ensures Precedes(o, r[i], r[j]) {
        if i > 0 {
          assert r[i] == s[i - 1] && r[j] == s[j - 1];
        } else {
          assert r[j] == s[j - 1];
          assert j > 1 ==> Precedes(o, s[0], s[j - 1]);
        }
      }
    } else {
      var t := s[1..];
      SortedTail(o, s);
      InsertSorted(o, x, t);
      InsertPermutes(o, x, t);
      var it := Insert(o, x, t);
      var r := [s[0]] + it;
      forall i, j | 0 <= i < j < |r| ensures Precedes(o, r[i], r[j]) {
        if i == 0 {
          assert r[j] == it[j - 1];
          assert r[j] in multiset(it);
          if r[j] != x {
            assert r[j] in multiset(t);
            var m :| 0 <= m < |t| && t[m] == r[j];
            assert t[m] == s[m + 1];
          }
        } else {
          assert r[i] == it[i - 1] && r[j] == it[j - 1];
        }
      }
    }
  }

  lemma {:induction false} SortEntriesSorted(o: SortOrder, xs: seq<MyPlaceRating>)
    ensures Sorted(o, SortEntries(o, xs))
  {
    if xs != [] {
      SortEntriesSorted(o, xs[1..]);
      InsertSorted(o, xs[0], SortEntries(o, xs[1..]));
    }
  }

  lemma {:induction false} SortEntriesPermutes(o: SortOrder, xs: seq<MyPlaceRating>)
    ensures multiset(SortEntries(o, xs)) == multiset(xs)
  {
    if xs != [] {
      SortEntriesPermutes(o, xs[1..]);
      InsertPermutes(o, xs[0], SortEntries(o, xs[1..]));
      assert xs == [xs[0]] + xs[1..];
    }
  }

  lemma {:induction false} SortEntriesStable(o: SortOrder, xs: seq<MyPlaceRating>, k: int)
    ensures WithScore(SortEntries(o, xs), k) == WithScore(xs, k)
  {
    if xs != [] {
      SortEntriesStable(o, xs[1..], k);
      InsertWithScore(o, xs[0], SortEntries(o, xs[1..]), k);
    }
  }

  /** Sorting neither adds nor drops an entry. */
  lemma SortEntriesMembers(o: SortOrder, xs: seq<MyPlaceRating>)
    ensures forall e :: e in SortEntries(o, xs) <==> e in xs
  {
    SortEntriesPermutes(o, xs);
    forall e ensures e in SortEntries(o, xs) <==> e in xs {
      assert e in SortEntries(o, xs) <==> e in multiset(SortEntries(o, xs));
      assert e in xs <==> e in multiset(xs);
    }
  }

  /** The sort returns the filtered entries, reordered by score, ties in their original order. */
  lemma SortEntriesCorrect(o: SortOrder, xs: seq<MyPlaceRating>)
    ensures Sorted(o, SortEntries(o, xs))
    ensures multiset(SortEntries(o, xs)) == multiset(xs)
    ensures forall k :: WithScore(SortEntries(o, xs), k) == WithScore(xs, k)
  {
    SortEntriesSorted(o, xs);
    SortEntriesPermutes(o, xs);
    forall k ensures WithScore(SortEntries(o, xs), k) == WithScore(xs, k) {
      SortEntriesStable(o, xs, k);
    }
  }

  /** The list the page shows: collected, then filtered, then sorted. */
  function MyRatingsView(chain: Chain, addr: Address, chunk: seq<Place>, f: RatingFilter, o: SortOrder): (r: seq<MyPlaceRating>)
    ensures |r| <= |chunk|
    ensures forall e :: e in r ==> e.my > 0 && Admits(f, e.my)
  {
    var collected := Collected(chain, addr, chunk);
    var filtered := FilterEntries(collected, f);
    SortEntriesMembers(o, filtered);
    assert forall e :: e in collected ==> e.my > 0 by {
      forall e | e in collected ensures e.my > 0 {
        var i :| 0 <= i < |collected| && collected[i] == e;
      }
    }
    SortEntries(o, filtered)
  }

  /**
   * What the page shows: exactly the rated places of the chunk that pass the
   * filter, sorted by score in the chosen direction, places with equal scores in
   * catalogue order.
   */
  lemma MyRatingsViewCorrect(chain: Chain, addr: Address, chunk: seq<Place>, f: RatingFilter, o: SortOrder)
    ensures var v := MyRatingsView(chain, addr, chunk, f, o);
      && Sorted(o, v)
      && multiset(v) == multiset(FilterEntries(Collected(chain, addr, chunk), f))
      && (forall e :: e in v <==>
            (Admits(f, e.my) &&
             exists p :: p in chunk && Kept(MyRating(chain, addr, p.id)) && e == EntryFor(chain, addr, p)))
      && (forall k :: WithScore(v, k) == if Admits(f, k) then WithScore(Collected(chain, addr, chunk), k) else [])
  {
    var c := Collected(chain, addr, chunk);
    var filtered := FilterEntries(c, f);
    var v := SortEntries(o, filtered);
    SortEntriesCorrect(o, filtered);
    forall e ensures e in v <==> e in filtered {
      assert e in v <==> e in multiset(v);
      assert e in filtered <==> e in multiset(filtered);
    }
    forall k ensures WithScore(v, k) == if Admits(f, k) then WithScore(c, k) else [] {
      FilterWithScore(c, f, k);
    }
  }

  // ---------------------------------------------------------------------------
  // Stars and trend

  /** `Math.max(0, Math.min(5, Math.floor(n)))` for n = v / 100. */
  function ClampedFull(v: int): (full: nat)
    ensures full <= 5
    ensures 0 <= v < 600 ==> full == v / 100
    ensures v < 0 ==> full == 0
    ensures v >= 500 ==> full == 5
  {
    var floor := v / 100;
    if floor < 0 then 0 else if floor > 5 then 5 else floor
  }

  /**
   * `stars(n)` for n = v / 100: the dash for null, undefined or 0; otherwise
   * floor(n) full stars clamped to [0, 5], and a half star when n minus that is
   * at least 0.5.
   */
  function Stars(v: Option<int>): (r: string)
    ensures r == Placeholder <==> v.None? || v == Some(0)
    ensures v.Some? && v.value != 0 ==>
      var full := ClampedFull(v.value);
      var half := v.value - 100 * full >= 50;
      && |r| == full + (if half then 1 else 0)
      && (forall i :: 0 <= i < full ==> r[i] == FullStar)
      && (half ==> r[full] == HalfStar)
      && Count(FullStar, r) == full
      && Count(HalfStar, r) == (if half then 1 else 0)
    ensures Count(FullStar, r) <= 5
    ensures v.Some? && v.value < 0 ==> r == ""
    ensures v.Some? && 0 < v.value < 600 ==> StarValue(r) <= v.value < StarValue(r) + 50
    ensures v.Some? && v.value >= 500 ==> Count(FullStar, r) == 5 && (Count(HalfStar, r) == 1 <==> v.value >= 550)
  {
    match v
    case None => Placeholder
    case Some(n) =>
      if n == 0 then Placeholder
      else StarGlyphs(ClampedFull(n), n - 100 * ClampedFull(n) >= 50)
  }

  /** The trend arrow drawn beside my score. */
  datatype Trend = Up | Down | Flat

  function Abs(x: int): nat {
    if x < 0 then -x else x
  }

  /**
   * The trend of my score `my` against the average `avg` (x100): none without an
   * average; otherwise up when my score exceeds it by more than 0.25, down when it
   * falls short by more than 0.25, flat within that band.
   */
  function TrendOf(my: int, avg: Option<int>): (t: Option<Trend>)
    ensures t.None? <==> avg.None?
    ensures avg.Some? ==> (t == Some(Flat) <==> Abs(100 * my - avg.value) <= 25)
    ensures avg.Some? ==> (t == Some(Up) <==> 100 * my > avg.value + 25)
    ensures avg.Some? ==> (t == Some(Down) <==> 100 * my < avg.value - 25)
  {
    match avg
    case None => None
    case Some(a) =>
      var diff := 100 * my - a;
      if diff > 25 then Some(Up) else if diff < -25 then Some(Down) else Some(Flat)
  }

  function TrendRank(t: Option<Trend>): int {
    match t
    case Some(Down) => 0
    case Some(Flat) => 1
    case Some(Up) => 2
    case None => 1
  }

  /** A higher score of mine never lowers the trend; a higher average never raises it. */
  lemma TrendMonotone(my1: int, my2: int, a1: int, a2: int)
    requires my1 <= my2 && a2 <= a1
    ensures TrendRank(TrendOf(my1, Some(a1))) <= TrendRank(TrendOf(my2, Some(a2)))
  {
  }

  // ---------------------------------------------------------------------------
  // The page state

  class EntriesPage {
    var entries: seq<MyPlaceRating>
    var loading: bool
    /** How many places of the catalogue are checked. */
    var count: int
    var sortOrder: SortOrder
    var filter: RatingFilter

    constructor ()
      ensures entries == [] && !loading && count == 6 && sortOrder == Desc && filter == All
    {
      entries := [];
      loading := false;
      count := 6;
      sortOrder := Desc;
      filter := All;
    }

    /**
     * `fetchEntries`: probe my rating for each of the first `count` places, read
     * the average of those I rated, then filter and sort. Returns the reads made.
     */
    method FetchEntries(chain: Chain, places: seq<Place>, addr: Address) returns (calls: seq<ReadCall>)
      modifies this`entries, this`loading
      ensures entries == MyRatingsView(chain, addr, SafeGetPlaces(places, count), filter, sortOrder)
      ensures !loading
      ensures calls == EntriesReads(chain, addr, SafeGetPlaces(places, count))
    {
      loading := true;
      var chunk := SafeGetPlaces(places, count);
      var res: seq<MyPlaceRating> := [];
      calls := [];
      for i := 0 to |chunk|
        invariant res == Collected(chain, addr, chunk[..i])
        invariant calls == EntriesReads(chain, addr, chunk[..i])
      {
        var p := chunk[i];
        CollectStep(chain, addr, chunk, i);
        var my, tried := ReadMyRating(chain, addr, p.id);
        calls := calls + tried;
        if my.Some? && NumericTruthy(my.value) && my.value.n > 0 {
          var avg := ReadAverage(chain(AverageCall(p.id)));
          calls := calls + [AverageCall(p.id)];
          res := res + [MyPlaceRating(p.id, my.value.n, avg)];
        }
      }
      assert chunk[..|chunk|] == chunk;
      var filtered := FilterEntries(res, filter);
      entries := SortEntries(sortOrder, filtered);
      loading := false;
    }

    /** The "show more" button: check six more places. */
    method ShowMore()
      modifies this`count
      ensures count == old(count) + 6
    {
      count := count + 6;
    }
  }
}
