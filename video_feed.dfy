/** The pitch feed (src/components/VideoFeed.tsx).

    Loading takes a fresh copy of the mock list, keeps the pitches of the
    selected category when one is selected, and sorts them newest first. The
    category buttons list each category of the mock list once, in order of
    first appearance. An integer cursor `currentIndex` picks the active pitch
    and is moved forward by a committed swipe and by the next arrow.
    `handlePrevious` would move it back, but no control calls it.
    The load pipeline and the category list are functions; the feed's state
    changes are functions on a `FeedState` value, followed by the handlers of
    the `VideoFeed` class. */
module Feed {
  import opened Wrappers
  import opened Types
  import Card

  // ---------------------------------------------------------------------
  // Mock data
  // ---------------------------------------------------------------------

  /** `MOCK_VIDEOS`; each `createdAt` is the millisecond timestamp of the
      date at midnight UTC, which is what `new Date("YYYY-MM-DD")` gives. */
  const Pitch1: PitchVideo :=
    PitchVideo("1", "EcoTech Solutions", "Sustainable energy for urban environments",
      "https://assets.mixkit.co/videos/preview/mixkit-hands-holding-a-smartphone-and-dancing-on-a-table-3734-large.mp4",
      "https://picsum.photos/seed/ecotech/800/1200", 500000, 125000, "CleanTech",
      "We're developing affordable solar panels that can be installed on any surface to generate clean energy.",
      "Alex Johnson", "San Francisco, CA", 1697328000000)

  const Pitch2: PitchVideo :=
    PitchVideo("2", "MediSync", "AI-powered health monitoring for everyone",
      "https://assets.mixkit.co/videos/preview/mixkit-digital-animation-of-a-man-working-from-a-sofa-with-a-40961-large.mp4",
      "https://picsum.photos/seed/medisync/800/1200", 750000, 250000, "HealthTech",
      "Our wearable device uses AI to predict health issues before they become serious problems.",
      "Sarah Chen", "Boston, MA", 1697760000000)

  const Pitch3: PitchVideo :=
    PitchVideo("3", "Urban Harvest", "Vertical farming solutions for cities",
      "https://assets.mixkit.co/videos/preview/mixkit-smiling-woman-working-on-her-laptop-from-an-open-office-43366-large.mp4",
      "https://picsum.photos/seed/urbanharvest/800/1200", 350000, 100000, "FoodTech",
      "We're building vertical farms in urban areas to grow fresh produce year-round with minimal resources.",
      "Miguel Rodriguez", "Austin, TX", 1698192000000)

  const Pitch4: PitchVideo :=
    PitchVideo("4", "Quantum Logistics", "Revolutionizing supply chain with blockchain",
      "https://assets.mixkit.co/videos/preview/mixkit-traveling-through-a-colorful-tunnel-of-lights-10098-large.mp4",
      "https://picsum.photos/seed/quantum/800/1200", 1000000, 400000, "Logistics",
      "Our blockchain platform offers complete transparency and efficiency for global supply chains.",
      "Olivia Wang", "Seattle, WA", 1698796800000)

  const Pitch5: PitchVideo :=
    PitchVideo("5", "CodeMentor", "AI-powered coding assistant for developers",
      "https://assets.mixkit.co/videos/preview/mixkit-man-working-on-his-laptop-308-large.mp4",
      "https://picsum.photos/seed/codementor/800/1200", 600000, 200000, "DevTools",
      "Our AI assistant helps developers write better code faster through real-time suggestions.",
      "Raj Patel", "New York, NY", 1699142400000)

  const MockVideos: seq<PitchVideo> := [Pitch1, Pitch2, Pitch3, Pitch4, Pitch5]

  // ---------------------------------------------------------------------
  // Category filter
  // ---------------------------------------------------------------------

  /** `if (activeCategory)`: a selected category filters only when it is a
      non-empty string, since the empty string is falsy. */
  predicate Filters(activeCategory: Option<string>)
  {
    activeCategory.Some? && activeCategory.value != ""
  }

  /** `filter(video => video.category === c)`, keeping the order of `vs`. */
  function OfCategory(vs: seq<PitchVideo>, c: string): (r: seq<PitchVideo>)
    ensures |r| <= |vs|
    ensures forall v :: v in r ==> v in vs && v.category == c
  {
    if vs == [] then []
    else (if vs[0].category == c then [vs[0]] else []) + OfCategory(vs[1..], c)
  }

  /** The filter keeps every pitch of category `c`, as often as it occurs,
      and nothing else. */
  lemma {:induction false} OfCategoryExactly(vs: seq<PitchVideo>, c: string)
    ensures forall v :: multiset(OfCategory(vs, c))[v] ==
                        if v.category == c then multiset(vs)[v] else 0
  {
    if vs != [] {
      OfCategoryExactly(vs[1..], c);
      assert vs == [vs[0]] + vs[1..];
      assert multiset(vs) == multiset{vs[0]} + multiset(vs[1..]);
    }
  }

  // ---------------------------------------------------------------------
  // Newest-first sort
  // ---------------------------------------------------------------------

  ghost predicate NewestFirst(s: seq<PitchVideo>)
  {
    forall i, j :: 0 <= i < j < |s| ==> s[i].createdAt >= s[j].createdAt
  }

  /** Places `v` before the first pitch that is not newer than it. */
  function Insert(v: PitchVideo, s: seq<PitchVideo>): (r: seq<PitchVideo>)
    ensures |r| == |s| + 1
    decreases |s|
  {
    if s == [] || v.createdAt >= s[0].createdAt then [v] + s
    else [s[0]] + Insert(v, s[1..])
  }

  /** `sort((a, b) => b.createdAt.getTime() - a.createdAt.getTime())`. The
      array sort of JavaScript is stable: pitches created at the same time
      keep their relative order. This insertion sort is stable too
      (`SortIsStable`), and a stable newest-first order is unique
      (`StableSortIsUnique`), so both sorts give the same list. */
  function SortNewestFirst(vs: seq<PitchVideo>): (r: seq<PitchVideo>)
    ensures |r| == |vs|
    decreases |vs|
  {
    if vs == [] then [] else Insert(vs[0], SortNewestFirst(vs[1..]))
  }

  lemma PrependSorted(v: PitchVideo, s: seq<PitchVideo>)
    requires NewestFirst(s)
    requires forall k :: 0 <= k < |s| ==> s[k].createdAt <= v.createdAt
    ensures NewestFirst([v] + s)
  {
    forall i, j | 0 <= i < j < |[v] + s|
      ensures ([v] + s)[i].createdAt >= ([v] + s)[j].createdAt
    {
      assert ([v] + s)[j] == s[j - 1];
      if i > 0 { assert ([v] + s)[i] == s[i - 1]; }
    }
  }

  lemma SortedTail(s: seq<PitchVideo>)
    requires NewestFirst(s) && s != []
    ensures NewestFirst(s[1..])
    ensures forall k :: 0 <= k < |s[1..]| ==> s[1..][k].createdAt <= s[0].createdAt
  {
    forall i, j | 0 <= i < j < |s[1..]| ensures s[1..][i].createdAt >= s[1..][j].createdAt {
      assert s[1..][i] == s[i + 1] && s[1..][j] == s[j + 1];
    }
    forall k | 0 <= k < |s[1..]| ensures s[1..][k].createdAt <= s[0].createdAt {
      assert s[1..][k] == s[k + 1];
    }
  }

  lemma {:induction false} InsertPermutes(v: PitchVideo, s: seq<PitchVideo>)
    ensures multiset(Insert(v, s)) == multiset(s) + multiset{v}
    decreases |s|
  {
    if s != [] && v.createdAt < s[0].createdAt {
      InsertPermutes(v, s[1..]);
      assert s == [s[0]] + s[1..];
    }
  }

  /** Inserting keeps a bound that holds of the pitch and of the list. */
  lemma {:induction false} InsertBelow(v: PitchVideo, s: seq<PitchVideo>, b: int)
    requires v.createdAt <= b
    requires forall k :: 0 <= k < |s| ==> s[k].createdAt <= b
    ensures forall k :: 0 <= k < |Insert(v, s)| ==> Insert(v, s)[k].createdAt <= b
    decreases |s|
  {
    if s != [] && v.createdAt < s[0].createdAt {
      assert forall k :: 0 <= k < |s[1..]| ==> s[1..][k] == s[k + 1];
      InsertBelow(v, s[1..], b);
      var t := Insert(v, s[1..]);
      assert forall k :: 1 <= k < |[s[0]] + t| ==> ([s[0]] + t)[k] == t[k - 1];
    }
  }

  lemma {:induction false} InsertSorted(v: PitchVideo, s: seq<PitchVideo>)
    requires NewestFirst(s)
    ensures NewestFirst(Insert(v, s))
    ensures multiset(Insert(v, s)) == multiset(s) + multiset{v}
    decreases |s|
  {
    InsertPermutes(v, s);
    if s == [] || v.createdAt >= s[0].createdAt {
      PrependSorted(v, s);
    } else {
      SortedTail(s);
      InsertSorted(v, s[1..]);
      InsertBelow(v, s[1..], s[0].createdAt);
      PrependSorted(s[0], Insert(v, s[1..]));
    }
  }

  /** The sort returns a permutation of its input, newest first. */
  lemma {:induction false} SortIsSortedPermutation(vs: seq<PitchVideo>)
    ensures NewestFirst(SortNewestFirst(vs))
    ensures multiset(SortNewestFirst(vs)) == multiset(vs)
    decreases |vs|
  {
    if vs != [] {
      SortIsSortedPermutation(vs[1..]);
      InsertSorted(vs[0], SortNewestFirst(vs[1..]));
      assert vs == [vs[0]] + vs[1..];
    }
  }

  /** A pitch not older than every pitch of a sorted list is inserted at its
      front, and so also at the front of the list filtered. */
  lemma InsertNewest(v: PitchVideo, s: seq<PitchVideo>, c: string)
    requires NewestFirst(s)
    requires s == [] || v.createdAt >= s[0].createdAt
    ensures Insert(v, s) == [v] + s
    ensures Insert(v, OfCategory(s, c)) == [v] + OfCategory(s, c)
  {
    var f := OfCategory(s, c);
    if f != [] {
      assert f[0] in s;
      var m :| 0 <= m < |s| && s[m] == f[0];
      assert s[0].createdAt >= s[m].createdAt;
    }
  }

  /** Filtering after an insertion is inserting into the filtered list. */
  lemma {:induction false} OfCategoryInsert(v: PitchVideo, s: seq<PitchVideo>, c: string)
    requires NewestFirst(s)
    ensures OfCategory(Insert(v, s), c) ==
            if v.category == c then Insert(v, OfCategory(s, c)) else OfCategory(s, c)
    decreases |s|
  {
    if s == [] || v.createdAt >= s[0].createdAt {
      InsertNewest(v, s, c);
      assert ([v] + s)[1..] == s;
    } else {
      SortedTail(s);
      OfCategoryInsert(v, s[1..], c);
      var t := Insert(v, s[1..]);
      assert ([s[0]] + t)[1..] == t;
      var f1 := OfCategory(s[1..], c);
      if s[0].category == c {
        assert OfCategory(s, c) == [s[0]] + f1;
        assert ([s[0]] + f1)[1..] == f1;
      } else {
        assert OfCategory(s, c) == f1;
      }
    }
  }

  /** The sort is stable with respect to filtering: the pitches of one category
      appear in the sorted full list in the order the sorted category list has. */
  lemma {:induction false} OfCategoryCommutesWithSort(vs: seq<PitchVideo>, c: string)
    ensures OfCategory(SortNewestFirst(vs), c) == SortNewestFirst(OfCategory(vs, c))
    decreases |vs|
  {
    if vs != [] {
      OfCategoryCommutesWithSort(vs[1..], c);
      SortIsSortedPermutation(vs[1..]);
      OfCategoryInsert(vs[0], SortNewestFirst(vs[1..]), c);
      var f := OfCategory(vs[1..], c);
      if vs[0].category == c {
        assert OfCategory(vs, c) == [vs[0]] + f;
        assert ([vs[0]] + f)[1..] == f;
      } else {
        assert OfCategory(vs, c) == f;
      }
    }
  }

  /** The pitches created at time `t`, in list order. */
  function OfTime(vs: seq<PitchVideo>, t: int): (r: seq<PitchVideo>)
    ensures forall v :: v in r ==> v in vs && v.createdAt == t
  {
    if vs == [] then []
    else (if vs[0].createdAt == t then [vs[0]] else []) + OfTime(vs[1..], t)
  }

  lemma OfTimeOfPrepended(v: PitchVideo, s: seq<PitchVideo>, t: int)
    ensures OfTime([v] + s, t) == (if v.createdAt == t then [v] else []) + OfTime(s, t)
  {
    assert ([v] + s)[1..] == s;
  }

  /** Inserting `v` puts it before every pitch of its own time. */
  lemma {:induction false} OfTimeInsert(v: PitchVideo, s: seq<PitchVideo>, t: int)
    ensures OfTime(Insert(v, s), t) ==
            if v.createdAt == t then [v] + OfTime(s, t) else OfTime(s, t)
    decreases |s|
  {
    if s == [] || v.createdAt >= s[0].createdAt {
      OfTimeOfPrepended(v, s, t);
    } else {
      OfTimeInsert(v, s[1..], t);
      OfTimeOfPrepended(s[0], Insert(v, s[1..]), t);
      OfTimeOfPrepended(s[0], s[1..], t);
      assert s == [s[0]] + s[1..];
    }
  }

  /** The sort is stable: the pitches created at any one time appear in the
      sorted list in their input order. */
  lemma {:induction false} SortIsStable(vs: seq<PitchVideo>, t: int)
    ensures OfTime(SortNewestFirst(vs), t) == OfTime(vs, t)
    decreases |vs|
  {
    if vs != [] {
      SortIsStable(vs[1..], t);
      OfTimeInsert(vs[0], SortNewestFirst(vs[1..]), t);
    }
  }

  lemma OfTimeNonEmpty(vs: seq<PitchVideo>, k: nat)
    requires k < |vs|
    ensures OfTime(vs, vs[k].createdAt) != []
    decreases k
  {
    if k > 0 {
      OfTimeNonEmpty(vs[1..], k - 1);
      assert vs[1..][k - 1] == vs[k];
    }
  }

  /** A newest-first list begins with the first pitch of its newest time. */
  lemma SortedHeadTime(a: seq<PitchVideo>, x: PitchVideo)
    requires NewestFirst(a) && a != [] && x in a
    ensures x.createdAt <= a[0].createdAt
  {
    var m :| 0 <= m < |a| && a[m] == x;
  }

  lemma SameSlicesSameHead(a: seq<PitchVideo>, b: seq<PitchVideo>)
    requires NewestFirst(a) && NewestFirst(b) && a != [] && b != []
    requires forall t :: OfTime(a, t) == OfTime(b, t)
    ensures a[0] == b[0]
  {
    var ka, kb := a[0].createdAt, b[0].createdAt;
    OfTimeNonEmpty(a, 0);
    OfTimeNonEmpty(b, 0);
    SortedHeadTime(b, OfTime(b, ka)[0]);
    SortedHeadTime(a, OfTime(a, kb)[0]);
    assert ka == kb;
    OfTimeOfPrepended(a[0], a[1..], ka);
    OfTimeOfPrepended(b[0], b[1..], ka);
    assert a == [a[0]] + a[1..] && b == [b[0]] + b[1..];
  }

  lemma SameSlicesSameTail(a: seq<PitchVideo>, b: seq<PitchVideo>, t: int)
    requires a != [] && b != [] && a[0] == b[0]
    requires OfTime(a, t) == OfTime(b, t)
    ensures OfTime(a[1..], t) == OfTime(b[1..], t)
  {
    OfTimeOfPrepended(a[0], a[1..], t);
    OfTimeOfPrepended(b[0], b[1..], t);
    assert a == [a[0]] + a[1..] && b == [b[0]] + b[1..];
    var h := if a[0].createdAt == t then [a[0]] else [];
    assert (h + OfTime(a[1..], t))[|h|..] == OfTime(a[1..], t);
    assert (h + OfTime(b[1..], t))[|h|..] == OfTime(b[1..], t);
  }

  /** Two newest-first lists with the same pitches at every time are equal. */
  lemma {:induction false} SameTimeSlicesEqual(a: seq<PitchVideo>, b: seq<PitchVideo>)
    requires NewestFirst(a) && NewestFirst(b)
    requires forall t :: OfTime(a, t) == OfTime(b, t)
    ensures a == b
    decreases |a| + |b|
  {
    if a == [] && b != [] {
      OfTimeNonEmpty(b, 0);
    } else if a != [] && b == [] {
      OfTimeNonEmpty(a, 0);
    } else if a != [] {
      SameSlicesSameHead(a, b);
      SortedTail(a);
      SortedTail(b);
      forall t ensures OfTime(a[1..], t) == OfTime(b[1..], t) {
        SameSlicesSameTail(a, b, t);
      }
      SameTimeSlicesEqual(a[1..], b[1..]);
      assert a == [a[0]] + a[1..] && b == [b[0]] + b[1..];
    }
  }

  /** Any stable newest-first ordering of `vs` is the one the sort returns. */
  lemma StableSortIsUnique(vs: seq<PitchVideo>, r: seq<PitchVideo>)
    requires NewestFirst(r)
    requires forall t :: OfTime(r, t) == OfTime(vs, t)
    ensures r == SortNewestFirst(vs)
  {
    SortIsSortedPermutation(vs);
    forall t ensures OfTime(r, t) == OfTime(SortNewestFirst(vs), t) {
      SortIsStable(vs, t);
    }
    SameTimeSlicesEqual(r, SortNewestFirst(vs));
  }

  // ---------------------------------------------------------------------
  // The load pipeline
  // ---------------------------------------------------------------------

  /** The list `fetchVideos` stores: a copy of `all`, filtered when a category
      is selected, sorted newest first. `all` is `MOCK_VIDEOS` in the app. */
  function LoadFeed(all: seq<PitchVideo>, activeCategory: Option<string>): (r: seq<PitchVideo>)
    ensures NewestFirst(r)
    ensures !Filters(activeCategory) ==> multiset(r) == multiset(all)
    ensures Filters(activeCategory) ==>
              forall v :: multiset(r)[v] ==
                          if v.category == activeCategory.value then multiset(all)[v] else 0
    ensures |r| <= |all|
    ensures forall v :: v in r ==> v in all
  {
    var base := if Filters(activeCategory) then OfCategory(all, activeCategory.value) else all;
    SortIsSortedPermutation(base);
    OfCategoryExactly(all, if Filters(activeCategory) then activeCategory.value else "");
    assert |multiset(SortNewestFirst(base))| == |multiset(base)|;
    assert forall v :: v in SortNewestFirst(base) ==> v in multiset(base);
    SortNewestFirst(base)
  }

  /** Every pitch in a loaded list has the selected category. */
  lemma LoadFeedOfCategory(all: seq<PitchVideo>, c: string)
    requires c != ""
    ensures forall v :: v in LoadFeed(all, Some(c)) ==> v.category == c
  {
    var r := LoadFeed(all, Some(c));
    forall v | v in r ensures v.category == c {
      assert multiset(r)[v] > 0;
    }
  }

  /** Loading a category gives the pitches of that category in the order the
      unfiltered feed shows them. */
  lemma LoadFeedIsSliceOfFullFeed(all: seq<PitchVideo>, c: string)
    requires c != ""
    ensures LoadFeed(all, Some(c)) == OfCategory(LoadFeed(all, None), c)
  {
    OfCategoryCommutesWithSort(all, c);
  }

  /** Selecting the empty string loads the same list as selecting nothing. */
  lemma EmptyCategoryDoesNotFilter(all: seq<PitchVideo>)
    ensures LoadFeed(all, Some("")) == LoadFeed(all, None)
  {
  }

  /** A pitch older than every pitch of a sorted list goes to its end. */
  lemma {:induction false} InsertOldest(v: PitchVideo, s: seq<PitchVideo>)
    requires forall k :: 0 <= k < |s| ==> s[k].createdAt > v.createdAt
    ensures Insert(v, s) == s + [v]
    decreases |s|
  {
    if s != [] {
      InsertOldest(v, s[1..]);
      assert s == [s[0]] + s[1..];
    }
  }

  /** The unfiltered feed of the mock list, newest first. */
  lemma MockFeedOrder()
    ensures LoadFeed(MockVideos, None) ==
            [MockVideos[4], MockVideos[3], MockVideos[2], MockVideos[1], MockVideos[0]]
  {
    var m := MockVideos;
    assert m[4..][1..] == [];
    assert SortNewestFirst(m[4..]) == [m[4]];
    assert m[3..][1..] == m[4..];
    InsertOldest(m[3], [m[4]]);
    assert SortNewestFirst(m[3..]) == [m[4], m[3]];
    assert m[2..][1..] == m[3..];
    InsertOldest(m[2], [m[4], m[3]]);
    assert SortNewestFirst(m[2..]) == [m[4], m[3], m[2]];
    assert m[1..][1..] == m[2..];
    InsertOldest(m[1], [m[4], m[3], m[2]]);
    assert SortNewestFirst(m[1..]) == [m[4], m[3], m[2], m[1]];
    InsertOldest(m[0], [m[4], m[3], m[2], m[1]]);
  }

  // ---------------------------------------------------------------------
  // Category list
  // ---------------------------------------------------------------------

  ghost predicate NoDuplicates(s: seq<string>)
  {
    forall i, j :: 0 <= i < j < |s| ==> s[i] != s[j]
  }

  /** The index of the first occurrence of `x` in `s`. */
  function FirstIndex(s: seq<string>, x: string): (k: nat)
    requires x in s
    ensures k < |s| && s[k] == x
    ensures forall i :: 0 <= i < k ==> s[i] != x
  {
    if s[0] == x then 0 else 1 + FirstIndex(s[1..], x)
  }

  /** `Array.from(new Set(s))`: a set iterates in insertion order, so each
      element is kept where it first appears. */
  function Distinct(s: seq<string>): (r: seq<string>)
    decreases |s|
  {
    if s == [] then []
    else
      var r := Distinct(s[..|s| - 1]);
      if s[|s| - 1] in r then r else r + [s[|s| - 1]]
  }

  lemma FirstIndexOfPrefix(p: seq<string>, q: seq<string>, x: string)
    requires x in p
    ensures FirstIndex(p + q, x) == FirstIndex(p, x)
  {
    var k := FirstIndex(p, x);
    var k' := FirstIndex(p + q, x);
    assert (p + q)[k] == x;
    assert forall i :: 0 <= i < |p| ==> (p + q)[i] == p[i];
  }

  /** The distinct elements are the elements of `s`, each once, in the order
      of their first appearance. */
  lemma {:induction false} DistinctElements(s: seq<string>)
    ensures NoDuplicates(Distinct(s))
    ensures forall x :: x in Distinct(s) <==> x in s
    ensures forall i, j :: 0 <= i < j < |Distinct(s)| ==>
              FirstIndex(s, Distinct(s)[i]) < FirstIndex(s, Distinct(s)[j])
    decreases |s|
  {
    if s != [] {
      var p := s[..|s| - 1];
      var x := s[|s| - 1];
      assert s == p + [x];
      DistinctElements(p);
      var r := Distinct(p);
      forall y | y in r ensures FirstIndex(s, y) == FirstIndex(p, y) {
        FirstIndexOfPrefix(p, [x], y);
      }
      if x !in r {
        assert x !in p;
        assert FirstIndex(s, x) == |p| by {
          assert forall i :: 0 <= i < |p| ==> s[i] == p[i];
        }
        forall i, j | 0 <= i < j < |r + [x]|
          ensures FirstIndex(s, (r + [x])[i]) < FirstIndex(s, (r + [x])[j])
        {
          assert (r + [x])[i] == r[i];
          if j < |r| {
            assert (r + [x])[j] == r[j];
          } else {
            assert (r + [x])[j] == x;
          }
        }
      }
    }
  }

  /** The `category` of each pitch, in list order. */
  function CategoryColumn(vs: seq<PitchVideo>): (r: seq<string>)
    ensures |r| == |vs|
    ensures forall i :: 0 <= i < |vs| ==> r[i] == vs[i].category
  {
    seq(|vs|, i requires 0 <= i < |vs| => vs[i].category)
  }

  /** `categories`: each category of `vs` once, in order of first appearance. */
  function Categories(vs: seq<PitchVideo>): (r: seq<string>)
    ensures NoDuplicates(r)
    ensures forall c :: c in r <==> exists i :: 0 <= i < |vs| && vs[i].category == c
  {
    var col := CategoryColumn(vs);
    assert forall c :: c in col <==> exists i :: 0 <= i < |vs| && vs[i].category == c by {
      forall c | c in col ensures exists i :: 0 <= i < |vs| && vs[i].category == c {
        var i :| 0 <= i < |col| && col[i] == c;
      }
    }
    DistinctElements(col);
    Distinct(col)
  }

  lemma CategoriesInFirstAppearanceOrder(vs: seq<PitchVideo>)
    ensures forall c :: c in Categories(vs) ==> c in CategoryColumn(vs)
    ensures forall i, j :: 0 <= i < j < |Categories(vs)| ==>
              FirstIndex(CategoryColumn(vs), Categories(vs)[i]) <
              FirstIndex(CategoryColumn(vs), Categories(vs)[j])
  {
    DistinctElements(CategoryColumn(vs));
  }

  lemma DistinctAppendNew(s: seq<string>, x: string)
    requires x !in s
    ensures Distinct(s + [x]) == Distinct(s) + [x]
  {
    DistinctElements(s);
    assert (s + [x])[..|s + [x]| - 1] == s;
  }

  lemma MockCategoryColumn()
    ensures CategoryColumn(MockVideos) == ["CleanTech", "HealthTech", "FoodTech", "Logistics", "DevTools"]
  {
    var col := CategoryColumn(MockVideos);
    assert col[0] == "CleanTech" && col[1] == "HealthTech" && col[2] == "FoodTech";
    assert col[3] == "Logistics" && col[4] == "DevTools";
  }

  lemma DistinctOfFiveNames(c1: string, c2: string, c3: string, c4: string, c5: string)
    requires c1 != c2 && c1 != c3 && c1 != c4 && c1 != c5
    requires c2 != c3 && c2 != c4 && c2 != c5
    requires c3 != c4 && c3 != c5 && c4 != c5
    ensures Distinct([c1, c2, c3, c4, c5]) == [c1, c2, c3, c4, c5]
  {
    DistinctAppendNew([], c1);
    assert [] + [c1] == [c1];
    DistinctAppendNew([c1], c2);
    assert [c1] + [c2] == [c1, c2];
    DistinctAppendNew([c1, c2], c3);
    assert [c1, c2] + [c3] == [c1, c2, c3];
    DistinctAppendNew([c1, c2, c3], c4);
    assert [c1, c2, c3] + [c4] == [c1, c2, c3, c4];
    DistinctAppendNew([c1, c2, c3, c4], c5);
    assert [c1, c2, c3, c4] + [c5] == [c1, c2, c3, c4, c5];
  }

  /** The category buttons of the mock list. */
  lemma MockCategories()
    ensures Categories(MockVideos) == ["CleanTech", "HealthTech", "FoodTech", "Logistics", "DevTools"]
  {
    MockCategoryColumn();
    DistinctOfFiveNames("CleanTech", "HealthTech", "FoodTech", "Logistics", "DevTools");
  }

  // ---------------------------------------------------------------------
  // The feed's state and its handlers, as functions
  // ---------------------------------------------------------------------

  /** The state fields of the feed. `currentIndex` is an unbounded integer;
      nothing ties it to the length of `videos`. */
  datatype FeedState = FeedState(
    videos: seq<PitchVideo>,
    currentIndex: int,
    loading: bool,
    activeCategory: Option<string>)

  /** The state the feed is mounted in: no pitches yet, loading. */
  const Initial: FeedState := FeedState([], 0, true, None)

  /** The list a fetch for `activeCategory` stores. */
  function Load(activeCategory: Option<string>): (r: seq<PitchVideo>)
    ensures NewestFirst(r)
    ensures forall v :: v in r ==> v in MockVideos
    ensures Filters(activeCategory) ==> forall v :: v in r ==> v.category == activeCategory.value
  {
    var r := LoadFeed(MockVideos, activeCategory);
    if Filters(activeCategory) then LoadFeedOfCategory(MockVideos, activeCategory.value); r else r
  }

  /** A category button (or "All", `None`). The fetch effect depends on
      `activeCategory`, so it starts, and shows the spinner, only when the
      selection changes. */
  function SelectCategory(s: FeedState, c: Option<string>): (r: FeedState)
    ensures r.activeCategory == c
    ensures r.videos == s.videos && r.currentIndex == s.currentIndex
    ensures r.loading == (s.loading || c != s.activeCategory)
  {
    if c == s.activeCategory then s else s.(activeCategory := c, loading := true)
  }

  /** The end of `fetchVideos`: the loaded list replaces `videos` and the
      spinner stops. The cursor is not touched. */
  function FinishFetch(s: FeedState): (r: FeedState)
    ensures r.videos == Load(s.activeCategory) && !r.loading
    ensures r.currentIndex == s.currentIndex && r.activeCategory == s.activeCategory
  {
    s.(videos := Load(s.activeCategory), loading := false)
  }

  /** The guard the swipe and next handlers share. */
  predicate HasNext(s: FeedState)
  {
    s.currentIndex < |s.videos| - 1
  }

  /** `handleSwipe`: the next state and whether the end of the feed is reported. */
  function Swipe(s: FeedState, direction: SwipeDirection, videoId: string): (r: (FeedState, bool))
    ensures r.1 <==> !HasNext(s)
    ensures r.0.currentIndex == if HasNext(s) then s.currentIndex + 1 else s.currentIndex
    ensures r.0.videos == s.videos && r.0.loading == s.loading && r.0.activeCategory == s.activeCategory
  {
    if s.currentIndex < |s.videos| - 1 then (s.(currentIndex := s.currentIndex + 1), false)
    else (s, true)
  }

  /** `handleNext`. */
  function Next(s: FeedState): (r: FeedState)
    ensures r.currentIndex == if HasNext(s) then s.currentIndex + 1 else s.currentIndex
    ensures r.videos == s.videos && r.loading == s.loading && r.activeCategory == s.activeCategory
  {
    if s.currentIndex < |s.videos| - 1 then s.(currentIndex := s.currentIndex + 1) else s
  }

  /** `handlePrevious`. No element of the rendered feed calls it. */
  function Previous(s: FeedState): (r: FeedState)
    ensures r.currentIndex == if s.currentIndex > 0 then s.currentIndex - 1 else s.currentIndex
    ensures r.videos == s.videos && r.loading == s.loading && r.activeCategory == s.activeCategory
  {
    if s.currentIndex > 0 then s.(currentIndex := s.currentIndex - 1) else s
  }

  /** The arrow that calls `handleNext` is rendered. */
  predicate ShowsNextIndicator(s: FeedState)
  {
    !s.loading && |s.videos| > s.currentIndex + 1
  }

  /** The pitch whose card is visible and active (`index === currentIndex`).
      While loading only the spinner is rendered, so no card is active. */
  function ActiveVideo(s: FeedState): (r: Option<PitchVideo>)
    ensures r.Some? <==> !s.loading && 0 <= s.currentIndex < |s.videos|
    ensures r.Some? ==> r.value == s.videos[s.currentIndex]
  {
    if !s.loading && 0 <= s.currentIndex < |s.videos| then Some(s.videos[s.currentIndex]) else None
  }

  // ---------------------------------------------------------------------
  // Cursor properties
  // ---------------------------------------------------------------------

  /** The cursor is never negative. */
  ghost predicate NonNegative(s: FeedState)
  {
    0 <= s.currentIndex
  }

  /** The cursor points at a pitch, or is 0 on an empty feed. */
  ghost predicate InRange(s: FeedState)
  {
    0 <= s.currentIndex && (s.currentIndex < |s.videos| || s.currentIndex == 0)
  }

  /** Every handler keeps the cursor non-negative; the previous handler in
      particular never moves it below 0. */
  lemma HandlersKeepCursorNonNegative(s: FeedState, c: Option<string>, d: SwipeDirection, videoId: string)
    requires NonNegative(s)
    ensures NonNegative(SelectCategory(s, c)) && NonNegative(FinishFetch(s))
    ensures NonNegative(Swipe(s, d, videoId).0) && NonNegative(Next(s)) && NonNegative(Previous(s))
    ensures NonNegative(Initial)
  {
    assert FinishFetch(s).currentIndex == s.currentIndex;
  }

  /** The cursor handlers keep a cursor that points at a pitch pointing at one. */
  lemma CursorHandlersKeepInRange(s: FeedState, c: Option<string>, d: SwipeDirection, videoId: string)
    requires InRange(s)
    ensures InRange(Swipe(s, d, videoId).0) && InRange(Next(s)) && InRange(Previous(s))
    ensures InRange(SelectCategory(s, c))
    ensures InRange(Initial)
  {
  }

  /** Left and right swipes, and swipes on any card, move the cursor alike;
      `handleNext` is a swipe that reports nothing. */
  lemma SwipeIgnoresDirection(s: FeedState, d1: SwipeDirection, id1: string, d2: SwipeDirection, id2: string)
    ensures Swipe(s, d1, id1) == Swipe(s, d2, id2)
    ensures Swipe(s, d1, id1).0 == Next(s)
  {
  }

  /** The end of the feed is reported exactly when the cursor is at the last
      pitch or beyond it, and then nothing changes. */
  lemma EndOfFeedLeavesStateAlone(s: FeedState, d: SwipeDirection, videoId: string)
    ensures Swipe(s, d, videoId).1 <==> s.currentIndex >= |s.videos| - 1
    ensures Swipe(s, d, videoId).1 ==> Swipe(s, d, videoId).0 == s
  {
  }

  /** The next arrow is shown exactly when the feed is not loading and the
      next handler would advance. */
  lemma IndicatorMatchesNextGuard(s: FeedState)
    ensures ShowsNextIndicator(s) <==> !s.loading && HasNext(s)
    ensures ShowsNextIndicator(s) ==> Next(s).currentIndex == s.currentIndex + 1
  {
  }

  /** Going back from a pitch that has a predecessor and forward again returns
      to it. */
  lemma PreviousThenNext(s: FeedState)
    requires InRange(s) && s.currentIndex > 0
    ensures Next(Previous(s)) == s
  {
  }

  /** A reload replaces the pitches and stops the spinner but keeps the cursor. */
  lemma ReloadKeepsCursor(s: FeedState, c: Option<string>)
    ensures FinishFetch(SelectCategory(s, c)).currentIndex == s.currentIndex
    ensures FinishFetch(SelectCategory(s, c)).videos == Load(c)
    ensures !FinishFetch(SelectCategory(s, c)).loading
  {
  }

  // ---------------------------------------------------------------------
  // Finding: the cursor is not reset when the category changes
  // ---------------------------------------------------------------------

  /** Loading CleanTech from the mock list gives its one pitch. */
  lemma CleanTechFeed()
    ensures |Load(None)| == 5
    ensures Load(Some("CleanTech")) == [Pitch1]
  {
    MockFeedOrder();
    assert OfCategory(Load(None), "CleanTech") == [Pitch1] by {
      var l := Load(None);
      assert l == [Pitch5, Pitch4, Pitch3, Pitch2, Pitch1];
      assert l[1..] == [Pitch4, Pitch3, Pitch2, Pitch1];
      assert l[1..][1..] == [Pitch3, Pitch2, Pitch1];
      assert l[1..][1..][1..] == [Pitch2, Pitch1];
      assert l[1..][1..][1..][1..] == [Pitch1];
      assert l[1..][1..][1..][1..][1..] == [];
    }
    LoadFeedIsSliceOfFullFeed(MockVideos, "CleanTech");
  }

  /** As written: at the last pitch of the full feed, switching to a category
      with one pitch leaves the cursor past the end of the new list. The feed
      is not empty, yet no card is active, the next arrow is hidden and the
      next handler cannot move. */
  lemma ReloadLeavesCursorPastEnd()
    ensures var s0 := FeedState(Load(None), 4, false, None);
            var s1 := FinishFetch(SelectCategory(s0, Some("CleanTech")));
            InRange(s0) && !InRange(s1) &&
            |s1.videos| == 1 && s1.currentIndex == 4 && ActiveVideo(s1) == None &&
            Next(s1) == s1 && Swipe(s1, Right, "1").1 && !ShowsNextIndicator(s1)
  {
    CleanTechFeed();
    var s0 := FeedState(Load(None), 4, false, None);
    var s1 := FinishFetch(SelectCategory(s0, Some("CleanTech")));
    assert s1 == FeedState([Pitch1], 4, false, Some("CleanTech"));
  }

  /** Corrected: the fetch re-seeds the cursor at the first pitch whenever it
      replaces the list. */
  function FinishFetchReseeded(s: FeedState): (r: FeedState)
    ensures r.videos == Load(s.activeCategory) && !r.loading && r.activeCategory == s.activeCategory
    ensures r.currentIndex == 0
  {
    s.(videos := Load(s.activeCategory), loading := false, currentIndex := 0)
  }

  /** With the corrected reload every handler keeps the cursor on a pitch, and
      a non-empty feed always has an active card. */
  lemma ReseededReloadKeepsInRange(s: FeedState)
    ensures InRange(FinishFetchReseeded(s))
    ensures FinishFetchReseeded(s).videos != [] ==> ActiveVideo(FinishFetchReseeded(s)).Some?
  {
  }

  lemma InRangeHasActiveVideo(s: FeedState)
    requires InRange(s) && s.videos != [] && !s.loading
    ensures ActiveVideo(s).Some?
  {
  }

  // ---------------------------------------------------------------------
  // A swipe on the first pitch
  // ---------------------------------------------------------------------

  /** After the first load, dragging the active card 150 units to the right
      and letting go reports a right swipe of the newest pitch, and the feed
      moves to the second pitch. */
  lemma SwipeRightOnNewestPitch()
    ensures var feed := FinishFetch(Initial);
            var card := Card.Run(Card.Idle, [Card.TouchStart(0), Card.TouchMove(150), Card.TouchEnd],
                                 feed.videos[0].id);
            ActiveVideo(feed) == Some(Pitch5) &&
            card.1 == [Card.SwipeDecision(Right, "5")] &&
            Swipe(feed, card.1[0].direction, card.1[0].videoId).0.currentIndex == 1 &&
            ActiveVideo(Swipe(feed, card.1[0].direction, card.1[0].videoId).0) == Some(Pitch4)
  {
    MockFeedOrder();
    Card.DragThenRelease(Card.Idle, 0, 150, "5");
  }

  // ---------------------------------------------------------------------
  // The feed component
  // ---------------------------------------------------------------------

  class VideoFeed {
    var videos: seq<PitchVideo>
    var currentIndex: int
    var loading: bool
    var activeCategory: Option<string>

    ghost function State(): FeedState
      reads this
    {
      FeedState(videos, currentIndex, loading, activeCategory)
    }

    ghost predicate Valid()
      reads this
    {
      NonNegative(State())
    }

    constructor ()
      ensures Valid() && State() == Initial
    {
      videos := [];
      currentIndex := 0;
      loading := true;
      activeCategory := None;
    }

    /** `setActiveCategory(c)` and, when that changes the selection, the start
        of the fetch effect. Returns whether a fetch was started. */
    method SetActiveCategory(c: Option<string>) returns (fetchStarted: bool)
      requires Valid()
      modifies this
      ensures Valid()
      ensures fetchStarted <==> c != old(activeCategory)
      ensures activeCategory == c && videos == old(videos) && currentIndex == old(currentIndex)
      ensures loading == (old(loading) || fetchStarted)
      ensures State() == SelectCategory(old(State()), c)
    {
      fetchStarted := c != activeCategory;
      if fetchStarted {
        activeCategory := c;
        loading := true;
      }
    }

    /** The rest of `fetchVideos`, once the simulated latency is over. */
    method FetchVideos()
      requires Valid()
      modifies this
      ensures Valid()
      ensures videos == Load(activeCategory) && !loading
      ensures currentIndex == old(currentIndex) && activeCategory == old(activeCategory)
      ensures State() == FinishFetch(old(State()))
    {
      var filtered := MockVideos;
      if activeCategory.Some? && activeCategory.value != "" {
        filtered := OfCategory(filtered, activeCategory.value);
      }
      filtered := SortNewestFirst(filtered);
      videos := filtered;
      loading := false;
    }

    /** Returns whether the end of the feed is reported. */
    method HandleSwipe(direction: SwipeDirection, videoId: string) returns (endOfFeed: bool)
      requires Valid()
      modifies this
      ensures Valid()
      ensures endOfFeed <==> old(currentIndex) >= |videos| - 1
      ensures currentIndex == if endOfFeed then old(currentIndex) else old(currentIndex) + 1
      ensures videos == old(videos) && loading == old(loading) && activeCategory == old(activeCategory)
      ensures (State(), endOfFeed) == Swipe(old(State()), direction, videoId)
    {
      endOfFeed := false;
      if currentIndex < |videos| - 1 {
        currentIndex := currentIndex + 1;
      } else {
        endOfFeed := true;
      }
    }

    method HandleNext()
      requires Valid()
      modifies this
      ensures Valid()
      ensures currentIndex == if old(currentIndex) < |videos| - 1 then old(currentIndex) + 1 else old(currentIndex)
      ensures videos == old(videos) && loading == old(loading) && activeCategory == old(activeCategory)
      ensures State() == Next(old(State()))
    {
      if currentIndex < |videos| - 1 {
        currentIndex := currentIndex + 1;
      }
    }

    method HandlePrevious()
      requires Valid()
      modifies this
      ensures Valid()
      ensures currentIndex == if old(currentIndex) > 0 then old(currentIndex) - 1 else old(currentIndex)
      ensures videos == old(videos) && loading == old(loading) && activeCategory == old(activeCategory)
      ensures State() == Previous(old(State()))
    {
      if currentIndex > 0 {
        currentIndex := currentIndex - 1;
      }
    }
  }
}
