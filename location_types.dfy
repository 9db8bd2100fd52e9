/**
 * The location records of the application and the helpers over them:
 * defaulting of legacy records, the sorted list of groups, per-group counts
 * and per-group buckets.
 */
module Types {
  import opened Wrappers
  import opened Text
  import opened Sequences

  type MarkerId = string

  datatype Coordinates = Coordinates(lat: real, lng: real)

  /** The group of locations that have not been filed anywhere else. */
  const DefaultGroup: string := "Inbox"

  /** The name a record without one receives. */
  const Untitled: string := "(Sin título)"

  /**
   * A saved location. `group` is always a string, as the type declares;
   * records loaded without one are not modelled.
   */
  datatype Location = Location(
    id: MarkerId,
    name: string,
    description: string,
    address: string,
    cp: string,
    coordinates: Coordinates,
    group: string,
    tags: Option<seq<string>>)

  /** `Partial<Location>`: any field may be absent. */
  datatype PartialLocation = PartialLocation(
    id: Option<MarkerId>,
    name: Option<string>,
    description: Option<string>,
    address: Option<string>,
    cp: Option<string>,
    coordinates: Option<Coordinates>,
    group: Option<string>,
    tags: Option<seq<string>>)

  /** A complete record seen as a partial one. */
  function AsPartial(l: Location): PartialLocation
  {
    PartialLocation(Some(l.id), Some(l.name), Some(l.description), Some(l.address),
                    Some(l.cp), Some(l.coordinates), Some(l.group), l.tags)
  }

  /**
   * Completes a legacy record: every falsy field (absent or empty) receives its
   * default; objects and arrays are truthy whenever present.
   */
  function NormalizeLocation(loc: PartialLocation): (r: Location)
    ensures r.name != "" && r.group != "" && r.tags.Some?
    ensures Truthy(loc.id) ==> r.id == loc.id.value
    ensures !Truthy(loc.id) ==> r.id == ""
    ensures Truthy(loc.name) ==> r.name == loc.name.value
    ensures !Truthy(loc.name) ==> r.name == Untitled
    ensures Truthy(loc.description) ==> r.description == loc.description.value
    ensures !Truthy(loc.description) ==> r.description == ""
    ensures Truthy(loc.address) ==> r.address == loc.address.value
    ensures !Truthy(loc.address) ==> r.address == ""
    ensures Truthy(loc.cp) ==> r.cp == loc.cp.value
    ensures !Truthy(loc.cp) ==> r.cp == ""
    ensures loc.coordinates.Some? ==> r.coordinates == loc.coordinates.value
    ensures loc.coordinates.None? ==> r.coordinates == Coordinates(0.0, 0.0)
    ensures Truthy(loc.group) ==> r.group == loc.group.value
    ensures !Truthy(loc.group) ==> r.group == DefaultGroup
    ensures loc.tags.Some? ==> r.tags == loc.tags
    ensures loc.tags.None? ==> r.tags == Some([])
  {
    Location(
      OrDefault(loc.id, ""),
      OrDefault(loc.name, Untitled),
      OrDefault(loc.description, ""),
      OrDefault(loc.address, ""),
      OrDefault(loc.cp, ""),
      loc.coordinates.GetOr(Coordinates(0.0, 0.0)),
      OrDefault(loc.group, DefaultGroup),
      Some(loc.tags.GetOr([])))
  }

  /** A record that already has a name, a group and a tag list comes back unchanged. */
  lemma NormalizeKeepsComplete(l: Location)
    requires l.name != "" && l.group != "" && l.tags.Some?
    ensures NormalizeLocation(AsPartial(l)) == l
  {
  }

  /** Normalising a normalised record changes nothing. */
  lemma NormalizeIdempotent(loc: PartialLocation)
    ensures NormalizeLocation(AsPartial(NormalizeLocation(loc))) == NormalizeLocation(loc)
  {
    NormalizeKeepsComplete(NormalizeLocation(loc));
  }

  // ---------------------------------------------------------------------------
  // Marker lookup by id (`some` / `find`)

  /** Some record carries the id. */
  predicate HasId(ms: seq<Location>, id: MarkerId)
  {
    exists i :: 0 <= i < |ms| && ms[i].id == id
  }

  /** The first record with the id, if any. */
  function FindById(ms: seq<Location>, id: MarkerId): (r: Option<Location>)
    ensures r.Some? <==> HasId(ms, id)
    ensures r.Some? ==> r.value in ms && r.value.id == id
  {
    if ms == [] then None
    else if ms[0].id == id then Some(ms[0])
    else
      var r := FindById(ms[1..], id);
      assert HasId(ms, id) ==> HasId(ms[1..], id) by {
        if HasId(ms, id) {
          var i :| 0 <= i < |ms| && ms[i].id == id;
          assert ms[1..][i - 1].id == id;
        }
      }
      assert HasId(ms[1..], id) ==> HasId(ms, id) by {
        if HasId(ms[1..], id) {
          var i :| 0 <= i < |ms[1..]| && ms[1..][i].id == id;
          assert ms[i + 1].id == id;
        }
      }
      r
  }

  /** What `find` returns is the first record with the id: none before it has that id. */
  lemma {:induction false} FindByIdFirst(ms: seq<Location>, id: MarkerId)
    ensures var r := FindById(ms, id);
      r.Some? ==> exists i :: 0 <= i < |ms| && ms[i] == r.value && forall j :: 0 <= j < i ==> ms[j].id != id
  {
    if ms != [] && ms[0].id != id {
      var r := FindById(ms[1..], id);
      FindByIdFirst(ms[1..], id);
      if r.Some? {
        var k :| 0 <= k < |ms[1..]| && ms[1..][k] == r.value && forall j :: 0 <= j < k ==> ms[1..][j].id != id;
        assert ms[k + 1] == r.value;
        forall j | 0 <= j < k + 1
          ensures ms[j].id != id
        {
          if j > 0 {
            assert ms[j] == ms[1..][j - 1];
          }
        }
      }
    }
  }

  // ---------------------------------------------------------------------------
  // The group order: "Inbox" first, the rest by a total order on strings.

  /**
   * Lexicographic order on code points: the total order on group names that
   * stands in for `localeCompare`.
   */
  predicate LexLess(a: string, b: string)
    decreases |a|
  {
    if a == [] then b != []
    else if b == [] then false
    else if a[0] != b[0] then a[0] < b[0]
    else LexLess(a[1..], b[1..])
  }

  lemma {:induction false} LexLessIrreflexive(a: string)
    ensures !LexLess(a, a)
  {
    if a != [] {
      LexLessIrreflexive(a[1..]);
    }
  }

  lemma {:induction false} LexLessTotal(a: string, b: string)
    requires a != b
    ensures LexLess(a, b) || LexLess(b, a)
  {
    if a != [] && b != [] && a[0] == b[0] {
      assert a == [a[0]] + a[1..] && b == [b[0]] + b[1..];
      LexLessTotal(a[1..], b[1..]);
    }
  }

  lemma {:induction false} LexLessAsymmetric(a: string, b: string)
    requires LexLess(a, b)
    ensures !LexLess(b, a)
  {
    if a != [] && b != [] && a[0] == b[0] {
      LexLessAsymmetric(a[1..], b[1..]);
    }
  }

  lemma {:induction false} LexLessTransitive(a: string, b: string, c: string)
    requires LexLess(a, b) && LexLess(b, c)
    ensures LexLess(a, c)
  {
    if a != [] && b != [] && c != [] && a[0] == b[0] && b[0] == c[0] {
      LexLessTransitive(a[1..], b[1..], c[1..]);
    }
  }

  /** The sort comparator: negative when `a` goes first. */
  function CompareGroups(a: string, b: string): int
  {
    if a == DefaultGroup then -1
    else if b == DefaultGroup then 1
    else if LexLess(a, b) then -1
    else if LexLess(b, a) then 1
    else 0
  }

  predicate Before(a: string, b: string)
  {
    CompareGroups(a, b) < 0
  }

  /** On distinct names the comparator is a strict total order. */
  lemma BeforeTotal(a: string, b: string)
    requires a != b
    ensures Before(a, b) != Before(b, a)
  {
    if a != DefaultGroup && b != DefaultGroup {
      LexLessTotal(a, b);
      if LexLess(a, b) {
        LexLessAsymmetric(a, b);
      }
    }
  }

  lemma BeforeTransitive(a: string, b: string, c: string)
    requires a != b && b != c && a != c
    requires Before(a, b) && Before(b, c)
    ensures Before(a, c)
  {
    if a != DefaultGroup {
      LexLessTransitive(a, b, c);
    }
  }

  /** Every name sorts after "Inbox". */
  lemma DefaultGroupFirst(g: string)
    requires g != DefaultGroup
    ensures Before(DefaultGroup, g) && !Before(g, DefaultGroup)
  {
  }

  predicate SortedGroups(s: seq<string>)
  {
    forall i, j :: 0 <= i < j < |s| ==> Before(s[i], s[j])
  }

  /** A name that sorts before every element of a sorted list, and is none of them, can go in front. */
  lemma PrependSorted(x: string, rest: seq<string>)
    requires SortedGroups(rest) && NoDuplicates(rest)
    requires forall j :: 0 <= j < |rest| ==> Before(x, rest[j]) && x != rest[j]
    ensures SortedGroups([x] + rest) && NoDuplicates([x] + rest)
  {
    var r := [x] + rest;
    forall i, j | 0 <= i < j < |r|
      ensures Before(r[i], r[j]) && r[i] != r[j]
    {
      assert r[j] == rest[j - 1];
      if i > 0 {
        assert r[i] == rest[i - 1];
      }
    }
  }

  /** The tail of a sorted list of distinct names is one too. */
  lemma TailSorted(s: seq<string>)
    requires s != [] && SortedGroups(s) && NoDuplicates(s)
    ensures SortedGroups(s[1..]) && NoDuplicates(s[1..])
  {
    var t := s[1..];
    forall i, j | 0 <= i < j < |t|
      ensures Before(t[i], t[j]) && t[i] != t[j]
    {
      assert t[i] == s[i + 1] && t[j] == s[j + 1];
    }
  }

  /** Inserting a name into a list of names before the first one it sorts before. */
  function InsertGroup(g: string, s: seq<string>): (r: seq<string>)
    ensures |r| == |s| + 1
  {
    if s == [] then [g]
    else if Before(g, s[0]) then [g] + s
    else [s[0]] + InsertGroup(g, s[1..])
  }

  /** Inserting a new name into a sorted list of distinct names keeps it sorted and adds exactly that name. */
  lemma {:induction false} InsertGroupSorted(g: string, s: seq<string>)
    requires SortedGroups(s) && NoDuplicates(s) && g !in s
    ensures SortedGroups(InsertGroup(g, s)) && NoDuplicates(InsertGroup(g, s))
    ensures multiset(InsertGroup(g, s)) == multiset(s) + multiset{g}
  {
    if s == [] {
    } else if Before(g, s[0]) {
      InsertInFront(g, s);
    } else {
      BeforeTotal(g, s[0]);
      TailSorted(s);
      assert g !in s[1..];
      InsertGroupSorted(g, s[1..]);
      InsertAfterHead(g, s);
    }
  }

  lemma InsertInFront(g: string, s: seq<string>)
    requires s != [] && SortedGroups(s) && NoDuplicates(s) && g !in s && Before(g, s[0])
    ensures SortedGroups([g] + s) && NoDuplicates([g] + s)
  {
    forall j | 0 <= j < |s| ensures Before(g, s[j]) && g != s[j] {
      if j > 0 {
        BeforeTransitive(g, s[0], s[j]);
      }
    }
    PrependSorted(g, s);
  }

  lemma InsertAfterHead(g: string, s: seq<string>)
    requires s != [] && SortedGroups(s) && NoDuplicates(s) && Before(s[0], g) && g != s[0]
    requires SortedGroups(InsertGroup(g, s[1..])) && NoDuplicates(InsertGroup(g, s[1..]))
    requires multiset(InsertGroup(g, s[1..])) == multiset(s[1..]) + multiset{g}
    ensures SortedGroups([s[0]] + InsertGroup(g, s[1..])) && NoDuplicates([s[0]] + InsertGroup(g, s[1..]))
    ensures multiset([s[0]] + InsertGroup(g, s[1..])) == multiset(s) + multiset{g}
  {
    var rest := InsertGroup(g, s[1..]);
    HeadBeforeRest(s[0], g, s[1..], rest);
    PrependSorted(s[0], rest);
    assert s == [s[0]] + s[1..];
  }

  /** A head that sorts before a new name and before a sorted tail sorts before the tail with the name inserted. */
  lemma HeadBeforeRest(h: string, g: string, tail: seq<string>, rest: seq<string>)
    requires Before(h, g) && h != g
    requires forall k :: 0 <= k < |tail| ==> Before(h, tail[k]) && h != tail[k]
    requires multiset(rest) == multiset(tail) + multiset{g}
    ensures forall j :: 0 <= j < |rest| ==> Before(h, rest[j]) && h != rest[j]
  {
    forall j | 0 <= j < |rest| ensures Before(h, rest[j]) && h != rest[j] {
      assert rest[j] in multiset(rest);
      if rest[j] != g {
        assert rest[j] in multiset(tail);
        var k :| 0 <= k < |tail| && tail[k] == rest[j];
      }
    }
  }

  /** The library sort of a list of distinct names under the comparator. */
  function SortGroups(s: seq<string>): (r: seq<string>)
    requires NoDuplicates(s)
    ensures SortedGroups(r) && NoDuplicates(r)
    ensures multiset(r) == multiset(s)
  {
    if s == [] then []
    else
      var init := s[..|s| - 1];
      assert s == init + [s[|s| - 1]];
      var sorted := SortGroups(init);
      assert s[|s| - 1] !in multiset(sorted);
      InsertGroupSorted(s[|s| - 1], sorted);
      InsertGroup(s[|s| - 1], sorted)
  }

  // ---------------------------------------------------------------------------
  // Aggregations over a sequence of locations

  /** The group names that occur in the input. */
  function GroupsOf(locations: seq<Location>): set<string>
  {
    set l | l in locations :: l.group
  }

  lemma GroupsOfSnoc(locations: seq<Location>, l: Location)
    ensures GroupsOf(locations + [l]) == GroupsOf(locations) + {l.group}
  {
    assert forall x :: x in locations + [l] <==> x in locations || x == l;
  }

  /** `getUniqueGroups`: the distinct groups, "Inbox" first and the rest in order. */
  method UniqueGroups(locations: seq<Location>) returns (groups: seq<string>)
    ensures NoDuplicates(groups)
    ensures forall g :: g in groups <==> g in GroupsOf(locations)
    ensures DefaultGroup in GroupsOf(locations) ==> groups[0] == DefaultGroup
    ensures SortedGroups(groups)
  {
    var seen: seq<string> := [];
    var i := 0;
    while i < |locations|
      invariant 0 <= i <= |locations|
      invariant NoDuplicates(seen)
      invariant forall g :: g in seen <==> g in GroupsOf(locations[..i])
    {
      GroupsOfSnoc(locations[..i], locations[i]);
      assert locations[..i + 1] == locations[..i] + [locations[i]];
      if locations[i].group !in seen {
        seen := seen + [locations[i].group];
      }
      i := i + 1;
    }
    assert locations[..i] == locations;
    groups := SortGroups(seen);
    assert forall g :: g in groups <==> g in seen by {
      forall g ensures g in groups <==> g in seen {
        assert g in groups <==> g in multiset(groups);
        assert g in seen <==> g in multiset(seen);
      }
    }
  }

  /** How many locations have the group, counted from the front. */
  function CountGroup(locations: seq<Location>, g: string): nat
  {
    if locations == [] then 0
    else CountGroup(locations[..|locations| - 1], g)
         + (if locations[|locations| - 1].group == g then 1 else 0)
  }

  lemma {:induction false} CountGroupPositive(locations: seq<Location>, g: string)
    ensures CountGroup(locations, g) > 0 <==> g in GroupsOf(locations)
  {
    if locations != [] {
      var init := locations[..|locations| - 1];
      assert locations == init + [locations[|locations| - 1]];
      CountGroupPositive(init, g);
      GroupsOfSnoc(init, locations[|locations| - 1]);
    }
  }

  /** `getGroupStats`: each occurring group mapped to its number of locations. */
  method GroupStats(locations: seq<Location>) returns (stats: map<string, nat>)
    ensures stats.Keys == GroupsOf(locations)
    ensures forall g :: g in stats ==> stats[g] == CountGroup(locations, g)
  {
    stats := map[];
    var i := 0;
    while i < |locations|
      invariant 0 <= i <= |locations|
      invariant stats.Keys == GroupsOf(locations[..i])
      invariant forall g :: g in stats ==> stats[g] == CountGroup(locations[..i], g)
    {
      var l := locations[i];
      assert locations[..i + 1] == locations[..i] + [l];
      assert locations[..i + 1][..i] == locations[..i];
      GroupsOfSnoc(locations[..i], l);
      CountGroupPositive(locations[..i], l.group);
      stats := stats[l.group := (if l.group in stats then stats[l.group] else 0) + 1];
      i := i + 1;
    }
    assert locations[..i] == locations;
  }

  /** The locations of one group, in input order. */
  function InGroup(locations: seq<Location>, g: string): (r: seq<Location>)
    ensures |r| == CountGroup(locations, g)
    ensures forall i :: 0 <= i < |r| ==> r[i] in locations && r[i].group == g
  {
    if locations == [] then []
    else
      var init := locations[..|locations| - 1];
      var last := locations[|locations| - 1];
      InGroup(init, g) + (if last.group == g then [last] else [])
  }

  /** Every location lies in the bucket of its own group. */
  lemma {:induction false} InGroupContains(locations: seq<Location>, i: nat)
    requires i < |locations|
    ensures locations[i] in InGroup(locations, locations[i].group)
  {
    var init := locations[..|locations| - 1];
    if i < |locations| - 1 {
      InGroupContains(init, i);
    }
  }

  /** `groupLocations`: each occurring group mapped to its locations, in input order. */
  method GroupLocations(locations: seq<Location>) returns (buckets: map<string, seq<Location>>)
    ensures buckets.Keys == GroupsOf(locations)
    ensures forall g :: g in buckets ==> buckets[g] == InGroup(locations, g)
  {
    buckets := map[];
    var i := 0;
    while i < |locations|
      invariant 0 <= i <= |locations|
      invariant buckets.Keys == GroupsOf(locations[..i])
      invariant forall g :: g in buckets ==> buckets[g] == InGroup(locations[..i], g)
    {
      var l := locations[i];
      assert locations[..i + 1] == locations[..i] + [l];
      assert locations[..i + 1][..i] == locations[..i];
      GroupsOfSnoc(locations[..i], l);
      CountGroupPositive(locations[..i], l.group);
      buckets := buckets[l.group := (if l.group in buckets then buckets[l.group] else []) + [l]];
      i := i + 1;
    }
    assert locations[..i] == locations;
  }

  // ---------------------------------------------------------------------------
  // The buckets and counts partition the input

  /** The sum of the counts of the listed groups. */
  function SumCounts(locations: seq<Location>, gs: seq<string>): nat
  {
    if gs == [] then 0 else CountGroup(locations, gs[0]) + SumCounts(locations, gs[1..])
  }

  function Occurrences(gs: seq<string>, g: string): nat
  {
    if gs == [] then 0 else (if gs[0] == g then 1 else 0) + Occurrences(gs[1..], g)
  }

  lemma {:induction false} OccurrencesOfDistinct(gs: seq<string>, g: string)
    requires NoDuplicates(gs) && g in gs
    ensures Occurrences(gs, g) == 1
  {
    if gs[0] == g {
      OccurrencesAbsent(gs[1..], g);
    } else {
      OccurrencesOfDistinct(gs[1..], g);
    }
  }

  lemma {:induction false} OccurrencesAbsent(gs: seq<string>, g: string)
    requires g !in gs
    ensures Occurrences(gs, g) == 0
  {
    if gs != [] {
      OccurrencesAbsent(gs[1..], g);
    }
  }

  lemma {:induction false} SumCountsSnoc(locations: seq<Location>, l: Location, gs: seq<string>)
    ensures SumCounts(locations + [l], gs) == SumCounts(locations, gs) + Occurrences(gs, l.group)
  {
    if gs != [] {
      assert (locations + [l])[..|locations + [l]| - 1] == locations;
      SumCountsSnoc(locations, l, gs[1..]);
    }
  }

  /**
   * Summed over any duplicate-free list that covers the occurring groups, the
   * per-group counts add up to the number of locations.
   */
  lemma {:induction false} CountsSumToLength(locations: seq<Location>, gs: seq<string>)
    requires NoDuplicates(gs)
    requires forall g :: g in GroupsOf(locations) ==> g in gs
    ensures SumCounts(locations, gs) == |locations|
  {
    if locations == [] {
      SumCountsEmpty(gs);
    } else {
      var init := locations[..|locations| - 1];
      var last := locations[|locations| - 1];
      assert locations == init + [last];
      GroupsOfSnoc(init, last);
      CountsSumToLength(init, gs);
      SumCountsSnoc(init, last, gs);
      OccurrencesOfDistinct(gs, last.group);
    }
  }

  lemma {:induction false} SumCountsEmpty(gs: seq<string>)
    ensures SumCounts([], gs) == 0
  {
    if gs != [] {
      SumCountsEmpty(gs[1..]);
    }
  }

  /** The statistics over the unique groups account for every location exactly once. */
  lemma StatsCoverInput(locations: seq<Location>, groups: seq<string>)
    requires NoDuplicates(groups)
    requires forall g :: g in groups <==> g in GroupsOf(locations)
    ensures SumCounts(locations, groups) == |locations|
  {
    CountsSumToLength(locations, groups);
  }

  /** The buckets partition the input: each location is in its own group's bucket and no other. */
  lemma BucketsPartition(locations: seq<Location>, i: nat, g: string)
    requires i < |locations|
    ensures locations[i] in InGroup(locations, g) <==> g == locations[i].group
  {
    InGroupContains(locations, i);
  }
}
