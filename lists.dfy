/** Operations on the in-memory lists of records that the view-models share: lookup by id
    (`firstIndex(where:)`, `contains(where:)`), `remove(at:)`, append-if-absent, write-back
    over the first entry with an id, the owned-volume toggle, the title filter and
    `remove(atOffsets:)`. */
module Lists {
  import opened Common
  import opened Records
  import Text

  // ---------------------------------------------------------------------------------------
  // Ids

  /** `s.contains(where: { $0.id == id })`. */
  predicate HasId(s: seq<Manga>, id: int)
  {
    exists i :: 0 <= i < |s| && s[i].id == id
  }

  /** Number of entries of `s` with the given id. */
  function CountId(s: seq<Manga>, id: int): nat
  {
    if s == [] then 0 else (if s[0].id == id then 1 else 0) + CountId(s[1..], id)
  }

  /** No two entries share an id. */
  predicate UniqueIds(s: seq<Manga>)
  {
    forall i, j :: 0 <= i < j < |s| ==> s[i].id != s[j].id
  }

  /** No id occurs in both lists. */
  predicate DisjointIds(a: seq<Manga>, b: seq<Manga>)
  {
    forall i :: 0 <= i < |a| ==> !HasId(b, a[i].id)
  }

  /** `m` is the title the list ends with (`list.last?.id == m.id`); an empty list has no
      end. This is the infinite-scroll trigger of every paged list. */
  predicate AtEnd(list: seq<Manga>, m: Manga)
  {
    |list| > 0 && list[|list| - 1].id == m.id
  }

  /** `s.firstIndex(where: { $0.id == id })`. */
  function FirstIndexOfId(s: seq<Manga>, id: int): (r: Option<nat>)
    ensures r.None? <==> !HasId(s, id)
    ensures r.Some? ==> r.value < |s| && s[r.value].id == id
    ensures r.Some? ==> forall j :: 0 <= j < r.value ==> s[j].id != id
  {
    if s == [] then None
    else if s[0].id == id then Some(0)
    else
      match FirstIndexOfId(s[1..], id)
      case None => None
      case Some(k) => Some(k + 1)
  }

  lemma {:induction false} CountIdPositive(s: seq<Manga>, id: int)
    ensures CountId(s, id) > 0 <==> HasId(s, id)
  {
    if s != [] {
      CountIdPositive(s[1..], id);
      if s[0].id != id && HasId(s, id) {
        var i :| 0 <= i < |s| && s[i].id == id;
        assert s[1..][i - 1].id == id;
      }
    }
  }

  lemma {:induction false} CountIdAppend(s: seq<Manga>, t: seq<Manga>, id: int)
    ensures CountId(s + t, id) == CountId(s, id) + CountId(t, id)
  {
    if s != [] {
      assert (s + t)[1..] == s[1..] + t;
      CountIdAppend(s[1..], t, id);
    } else {
      assert s + t == t;
    }
  }

  lemma SymmetricDisjoint(a: seq<Manga>, b: seq<Manga>)
    requires DisjointIds(a, b)
    ensures DisjointIds(b, a)
  {
  }

  // ---------------------------------------------------------------------------------------
  // Removal, append-if-absent and write-back

  /** `s.remove(at: i)`. */
  function RemoveAt(s: seq<Manga>, i: nat): (r: seq<Manga>)
    requires i < |s|
    ensures |r| == |s| - 1
    ensures forall j :: 0 <= j < i ==> r[j] == s[j]
    ensures forall j :: i <= j < |r| ==> r[j] == s[j + 1]
  {
    s[..i] + s[i + 1..]
  }

  /** The bucket/collection step of a move: drop the first entry with `id`, if any. */
  function RemoveFirstWithId(s: seq<Manga>, id: int): (r: seq<Manga>)
    ensures |s| - 1 <= |r| <= |s|
  {
    match FirstIndexOfId(s, id)
    case None => s
    case Some(i) =>
      assert s == s[..i] + [s[i]] + s[i + 1..];
      RemoveAt(s, i)
  }

  /** Removing the first entry with `id` leaves the list alone when there is none, and
      otherwise drops exactly one occurrence of `id`. */
  lemma RemoveFirstWithIdCount(s: seq<Manga>, id: int)
    ensures var r := RemoveFirstWithId(s, id);
      && (!HasId(s, id) ==> r == s)
      && (HasId(s, id) ==> |r| == |s| - 1 && CountId(r, id) == CountId(s, id) - 1)
  {
    var f := FirstIndexOfId(s, id);
    if f.Some? {
      CountIdRemoveAt(s, f.value, id);
    }
  }

  lemma CountIdRemoveAt(s: seq<Manga>, i: nat, id: int)
    requires i < |s|
    ensures CountId(RemoveAt(s, i), id) + (if s[i].id == id then 1 else 0) == CountId(s, id)
  {
    var a, b := s[..i], s[i + 1..];
    assert s == (a + [s[i]]) + b;
    CountIdAppend(a + [s[i]], b, id);
    CountIdAppend(a, [s[i]], id);
    CountIdAppend(a, b, id);
    CountIdSingle(s[i], id);
  }

  lemma CountIdSingle(m: Manga, id: int)
    ensures CountId([m], id) == if m.id == id then 1 else 0
  {
    assert [m][1..] == [];
  }

  /** Removing the first entry with `id` keeps every entry that does not carry `id`, in the
      same relative order. */
  lemma RemoveFirstWithIdKeepsOthers(s: seq<Manga>, id: int)
    ensures var r := RemoveFirstWithId(s, id);
      && IsSubsequence(r, s)
      && (forall m: Manga :: m.id != id ==> (m in r <==> m in s))
  {
    var r := RemoveFirstWithId(s, id);
    match FirstIndexOfId(s, id)
    case None =>
      SubsequenceRefl(s);
    case Some(i) =>
      SubsequenceDropOne(s, i);
      forall m: Manga | m.id != id
        ensures m in r <==> m in s
      {
        if m in s {
          var j :| 0 <= j < |s| && s[j] == m;
          assert j != i;
          if j < i { assert r[j] == m; } else { assert r[j - 1] == m; }
        }
      }
  }

  /** On a list with unique ids, removing the first entry with `id` removes the id
      completely and keeps the ids unique. */
  lemma RemoveFirstWithIdUnique(s: seq<Manga>, id: int)
    requires UniqueIds(s)
    ensures var r := RemoveFirstWithId(s, id);
      UniqueIds(r) && !HasId(r, id) && (forall j :: HasId(r, j) ==> HasId(s, j))
  {
    var r := RemoveFirstWithId(s, id);
    match FirstIndexOfId(s, id)
    case None =>
    case Some(i) =>
      forall a, b | 0 <= a < b < |r|
        ensures r[a].id != r[b].id
      {
        var a', b' := if a < i then a else a + 1, if b < i then b else b + 1;
        assert r[a] == s[a'] && r[b] == s[b'];
      }
      forall k | 0 <= k < |r|
        ensures r[k].id != id
      {
        var k' := if k < i then k else k + 1;
        assert r[k] == s[k'];
      }
      forall j | HasId(r, j)
        ensures HasId(s, j)
      {
        var k :| 0 <= k < |r| && r[k].id == j;
        var k' := if k < i then k else k + 1;
        assert s[k'].id == j;
      }
  }

  /** `if !s.contains(where: { $0.id == m.id }) { s.append(m) }`. */
  function AppendIfAbsent(s: seq<Manga>, m: Manga): (r: seq<Manga>)
    ensures HasId(r, m.id)
    ensures |s| <= |r| <= |s| + 1 && r[..|s|] == s
  {
    if HasId(s, m.id) then s
    else
      assert (s + [m])[|s|] == m;
      s + [m]
  }

  /** Adding is idempotent: a second add of the same id changes nothing. */
  lemma AppendIfAbsentIdempotent(s: seq<Manga>, m: Manga)
    ensures AppendIfAbsent(AppendIfAbsent(s, m), m) == AppendIfAbsent(s, m)
  {
  }

  /** With at most one entry for the id beforehand, there is exactly one afterwards, however
      often the add is repeated. */
  lemma AppendIfAbsentSingle(s: seq<Manga>, m: Manga)
    requires CountId(s, m.id) <= 1
    ensures CountId(AppendIfAbsent(s, m), m.id) == 1
    ensures CountId(AppendIfAbsent(AppendIfAbsent(s, m), m), m.id) == 1
  {
    CountIdPositive(s, m.id);
    if !HasId(s, m.id) {
      CountIdAppend(s, [m], m.id);
      CountIdSingle(m, m.id);
    }
  }

  /** Appending a record whose id is absent keeps the ids unique. */
  lemma AppendIfAbsentUnique(s: seq<Manga>, m: Manga)
    requires UniqueIds(s)
    ensures UniqueIds(AppendIfAbsent(s, m))
  {
  }

  /** The list-exclusivity step of both moves: appending to the target list and removing the
      first entry with the same id from the other list keeps both lists free of duplicate ids
      and keeps them disjoint. */
  lemma MoveKeepsExclusive(target: seq<Manga>, other: seq<Manga>, m: Manga)
    requires UniqueIds(target) && UniqueIds(other) && DisjointIds(target, other)
    ensures var t, o := AppendIfAbsent(target, m), RemoveFirstWithId(other, m.id);
      UniqueIds(t) && UniqueIds(o) && DisjointIds(t, o) && DisjointIds(o, t)
  {
    var t, o := AppendIfAbsent(target, m), RemoveFirstWithId(other, m.id);
    AppendIfAbsentUnique(target, m);
    RemoveFirstWithIdUnique(other, m.id);
    forall i | 0 <= i < |t|
      ensures !HasId(o, t[i].id)
    {
      if i < |target| {
        assert t[i] == target[i];
      } else {
        assert t[i] == m;
      }
    }
    SymmetricDisjoint(t, o);
  }

  /** Removing entries (by id) from one list keeps it disjoint from another. */
  lemma RemoveKeepsDisjoint(a: seq<Manga>, b: seq<Manga>, id: int)
    requires UniqueIds(b) && DisjointIds(a, b)
    ensures DisjointIds(a, RemoveFirstWithId(b, id))
  {
    RemoveFirstWithIdUnique(b, id);
  }

  /** `if let index = s.firstIndex(where: { $0.id == m.id }) { s[index] = m }`. */
  function ReplaceFirstWithId(s: seq<Manga>, m: Manga): (r: seq<Manga>)
    ensures |r| == |s|
    ensures forall k :: 0 <= k < |s| ==> r[k].id == s[k].id
    ensures !HasId(s, m.id) ==> r == s
  {
    match FirstIndexOfId(s, m.id)
    case None => s
    case Some(i) => s[i := m]
  }

  /** The write-back puts `m` at the first position carrying its id and leaves every other
      position as it was; so ids stay unique and the set of ids is unchanged. */
  lemma ReplaceFirstWithIdEffect(s: seq<Manga>, m: Manga)
    requires HasId(s, m.id)
    ensures var r, i := ReplaceFirstWithId(s, m), FirstIndexOfId(s, m.id).value;
      && r[i] == m
      && (forall k :: 0 <= k < |s| && k != i ==> r[k] == s[k])
      && (forall k :: 0 <= k < i ==> s[k].id != m.id)
      && (UniqueIds(s) ==> UniqueIds(r))
  {
  }

  // ---------------------------------------------------------------------------------------
  // Owned volumes

  /** `volumes.removeAll { $0 == v }`. */
  function RemoveAll(vs: seq<int>, v: int): (r: seq<int>)
    ensures v !in r
    ensures forall x :: x != v ==> multiset(r)[x] == multiset(vs)[x]
    ensures |r| <= |vs|
  {
    if vs == [] then []
    else
      assert vs == [vs[0]] + vs[1..];
      (if vs[0] == v then [] else [vs[0]]) + RemoveAll(vs[1..], v)
  }

  /** `persistBoughtVolumes`'s toggle: drop every occurrence of `v` when it is owned,
      otherwise append it at the end. */
  function ToggleVolume(vs: seq<int>, v: int): seq<int>
  {
    if v in vs then RemoveAll(vs, v) else vs + [v]
  }

  /** The toggle flips ownership of `v` and leaves the count of every other volume alone. */
  lemma ToggleVolumeFlips(vs: seq<int>, v: int)
    ensures var r := ToggleVolume(vs, v);
      && ((v in r) <==> (v !in vs))
      && (forall x :: x != v ==> multiset(r)[x] == multiset(vs)[x])
      && (v !in vs ==> r == vs + [v])
  {
    if v !in vs {
      assert multiset(vs + [v]) == multiset(vs) + multiset{v};
    }
  }

  lemma {:induction false} RemoveAllAbsent(vs: seq<int>, v: int)
    requires v !in vs
    ensures RemoveAll(vs, v) == vs
  {
    if vs != [] {
      RemoveAllAbsent(vs[1..], v);
    }
  }

  lemma {:induction false} RemoveAllAppend(vs: seq<int>, ws: seq<int>, v: int)
    ensures RemoveAll(vs + ws, v) == RemoveAll(vs, v) + RemoveAll(ws, v)
  {
    if vs == [] {
      assert vs + ws == ws;
    } else {
      var h := if vs[0] == v then [] else [vs[0]];
      assert (vs + ws)[0] == vs[0] && (vs + ws)[1..] == vs[1..] + ws;
      RemoveAllAppend(vs[1..], ws, v);
      var a, b := RemoveAll(vs[1..], v), RemoveAll(ws, v);
      assert RemoveAll(vs + ws, v) == h + (a + b);
      assert RemoveAll(vs, v) == h + a;
      assert h + (a + b) == (h + a) + b;
    }
  }

  /** Removing an owned volume shortens the list. */
  lemma {:induction false} RemoveAllShrinks(vs: seq<int>, v: int)
    requires v in vs
    ensures |RemoveAll(vs, v)| < |vs|
  {
    if vs[0] != v {
      RemoveAllShrinks(vs[1..], v);
    }
  }

  /** Toggling a volume that is not owned, twice, restores the list exactly. */
  lemma ToggleVolumeTwiceAbsent(vs: seq<int>, v: int)
    requires v !in vs
    ensures ToggleVolume(ToggleVolume(vs, v), v) == vs
  {
    assert v in vs + [v];
    RemoveAllAppend(vs, [v], v);
    RemoveAllAbsent(vs, v);
  }

  /** Toggling an owned volume twice does not restore the list: every copy of `v` is gone
      and a single `v` is put back at the end. */
  lemma ToggleVolumeTwicePresent(vs: seq<int>, v: int)
    requires v in vs
    ensures ToggleVolume(ToggleVolume(vs, v), v) == RemoveAll(vs, v) + [v]
  {
  }

  // ---------------------------------------------------------------------------------------
  // Order-preserving subsequences and the title filter

  /** `a` is `b` with some elements left out, the rest in their original order. */
  predicate IsSubsequence<T(==)>(a: seq<T>, b: seq<T>)
    decreases |b|
  {
    if a == [] then true
    else if b == [] then false
    else if a[0] == b[0] then IsSubsequence(a[1..], b[1..])
    else IsSubsequence(a, b[1..])
  }

  lemma {:induction false} SubsequenceRefl<T>(s: seq<T>)
    ensures IsSubsequence(s, s)
    decreases |s|
  {
    if s != [] {
      SubsequenceRefl(s[1..]);
    }
  }

  /** Leaving out one more element keeps a subsequence. */
  lemma {:induction false} SubsequenceDropOne<T>(s: seq<T>, i: nat)
    requires i < |s|
    ensures IsSubsequence(s[..i] + s[i + 1..], s)
    decreases |s|
  {
    var r := s[..i] + s[i + 1..];
    if i == 0 {
      assert r == s[1..];
      SubsequenceRefl(s[1..]);
      SubsequenceExtend(s[1..], s);
    } else {
      assert r[0] == s[0];
      assert r[1..] == s[1..][..i - 1] + s[1..][i..];
      SubsequenceDropOne(s[1..], i - 1);
    }
  }

  /** A subsequence of `b[1..]` is a subsequence of `b`. */
  lemma {:induction false} SubsequenceExtend<T>(a: seq<T>, b: seq<T>)
    requires |b| > 0 && IsSubsequence(a, b[1..])
    ensures IsSubsequence(a, b)
    decreases |b|, 1
  {
    if a != [] && a[0] == b[0] {
      SubsequenceTail(a, b[1..]);
    }
  }

  /** A subsequence stays a subsequence after dropping its own first element. */
  lemma {:induction false} SubsequenceTail<T>(a: seq<T>, c: seq<T>)
    requires a != [] && IsSubsequence(a, c)
    ensures IsSubsequence(a[1..], c)
    decreases |c|, 2
  {
    if a[0] == c[0] {
      if a[1..] != [] {
        SubsequenceExtend(a[1..], c);
      }
    } else {
      SubsequenceTail(a, c[1..]);
      if a[1..] != [] {
        SubsequenceExtend(a[1..], c);
      }
    }
  }

  /** The lower-cased title contains the lower-cased query. */
  predicate TitleMatches(m: Manga, query: string)
  {
    Text.Contains(Text.Lower(m.title), Text.Lower(query))
  }

  /** Matching ignores the case of the query: a query and its lower-cased form match the same
      titles. */
  lemma TitleMatchesIgnoresQueryCase(m: Manga, query: string)
    ensures TitleMatches(m, Text.Lower(query)) <==> TitleMatches(m, query)
  {
    Text.LowerIdempotent(query);
  }

  /** `s.filter { $0.title.lowercased().contains(query.lowercased()) }`: every matching
      entry, as often as it occurs in `s`, and nothing else. */
  function FilterByTitle(s: seq<Manga>, query: string): (r: seq<Manga>)
    ensures forall m :: m in r <==> m in s && TitleMatches(m, query)
    ensures forall m :: multiset(r)[m] == if TitleMatches(m, query) then multiset(s)[m] else 0
    ensures |r| <= |s|
  {
    if s == [] then []
    else
      assert s == [s[0]] + s[1..];
      (if TitleMatches(s[0], query) then [s[0]] else []) + FilterByTitle(s[1..], query)
  }

  /** The filter keeps the matching entries in their original order. */
  lemma {:induction false} FilterByTitleOrdered(s: seq<Manga>, query: string)
    ensures IsSubsequence(FilterByTitle(s, query), s)
    decreases |s|
  {
    if s != [] {
      FilterByTitleOrdered(s[1..], query);
      var rest := FilterByTitle(s[1..], query);
      if TitleMatches(s[0], query) {
        assert FilterByTitle(s, query) == [s[0]] + rest;
        assert ([s[0]] + rest)[1..] == rest;
      } else {
        assert FilterByTitle(s, query) == rest;
        SubsequenceExtend(rest, s);
      }
    }
  }

  /** The computed `filtered...` property of the list screens: everything when the query is
      empty (the `guard`), otherwise the title filter. */
  function SearchFilter(s: seq<Manga>, query: string): (r: seq<Manga>)
    ensures multiset(r) <= multiset(s)
  {
    if query == "" then s else FilterByTitle(s, query)
  }

  /** What the list screens show for a query, stated outright: all entries for an empty
      query, otherwise exactly the matching ones, in their original order. */
  lemma SearchFilterMeaning(s: seq<Manga>, query: string)
    ensures var r := SearchFilter(s, query);
      && (query == "" ==> r == s)
      && (query != "" ==> (forall m :: m in r <==> m in s && TitleMatches(m, query)))
      && IsSubsequence(r, s)
  {
    if query == "" {
      SubsequenceRefl(s);
    } else {
      FilterByTitleOrdered(s, query);
    }
  }

  // ---------------------------------------------------------------------------------------
  // remove(atOffsets:)

  /** `s.remove(atOffsets: offsets)`: keeps the elements whose position is not an offset. */
  function RemoveOffsets<T>(s: seq<T>, offsets: set<int>): seq<T>
  {
    if s == [] then []
    else RemoveOffsets(s[..|s| - 1], offsets) + (if |s| - 1 in offsets then [] else [s[|s| - 1]])
  }

  /** Number of offsets below `n`. */
  function OffsetsBelow(offsets: set<int>, n: nat): nat
  {
    if n == 0 then 0 else OffsetsBelow(offsets, n - 1) + (if n - 1 in offsets then 1 else 0)
  }

  lemma {:induction false} RemoveOffsetsLength<T>(s: seq<T>, offsets: set<int>)
    ensures |RemoveOffsets(s, offsets)| == |s| - OffsetsBelow(offsets, |s|)
    ensures OffsetsBelow(offsets, |s|) <= |s|
  {
    if s != [] {
      RemoveOffsetsLength(s[..|s| - 1], offsets);
    }
  }

  lemma {:induction false} RemoveOffsetsPrefix<T>(s: seq<T>, offsets: set<int>, n: nat)
    requires n <= |s|
    ensures var a, b := RemoveOffsets(s[..n], offsets), RemoveOffsets(s, offsets);
      |a| <= |b| && b[..|a|] == a
    decreases |s| - n
  {
    if n < |s| {
      RemoveOffsetsPrefix(s, offsets, n + 1);
      var p := s[..n + 1];
      assert p[..|p| - 1] == s[..n];
    } else {
      assert s[..n] == s;
    }
  }

  /** `remove(atOffsets:)` removes exactly the given offsets and keeps the relative order of
      the rest: an element not at an offset moves down by the number of offsets before it,
      and the list shrinks by the number of offsets it holds. */
  lemma RemoveOffsetsEffect<T>(s: seq<T>, offsets: set<int>, i: nat)
    requires i < |s| && i !in offsets
    ensures var r := RemoveOffsets(s, offsets);
      && |r| == |s| - OffsetsBelow(offsets, |s|)
      && 0 <= i - OffsetsBelow(offsets, i) < |r|
      && r[i - OffsetsBelow(offsets, i)] == s[i]
  {
    var r := RemoveOffsets(s, offsets);
    RemoveOffsetsLength(s, offsets);
    var p := s[..i + 1];
    assert p[..|p| - 1] == s[..i];
    var q := RemoveOffsets(s[..i], offsets);
    RemoveOffsetsLength(s[..i], offsets);
    assert |q| == i - OffsetsBelow(offsets, i);
    assert RemoveOffsets(p, offsets) == q + [s[i]];
    RemoveOffsetsPrefix(s, offsets, i + 1);
    assert r[..|q| + 1] == q + [s[i]];
    assert r[|q|] == (q + [s[i]])[|q|];
  }

  /** When every offset is a valid position, the list shrinks by exactly the number of
      offsets. */
  lemma RemoveOffsetsCount<T>(s: seq<T>, offsets: set<int>)
    requires forall o :: o in offsets ==> 0 <= o < |s|
    ensures |RemoveOffsets(s, offsets)| == |s| - |offsets|
  {
    RemoveOffsetsLength(s, offsets);
    OffsetsBelowAll(offsets, |s|);
    assert (set o | o in offsets && 0 <= o < |s|) == offsets;
  }

  lemma {:induction false} OffsetsBelowAll(offsets: set<int>, n: nat)
    ensures OffsetsBelow(offsets, n) == |set o | o in offsets && 0 <= o < n|
  {
    if n == 0 {
      assert (set o | o in offsets && 0 <= o < n) == {};
    } else {
      OffsetsBelowAll(offsets, n - 1);
      var below := set o | o in offsets && 0 <= o < n - 1;
      if n - 1 in offsets {
        assert (set o | o in offsets && 0 <= o < n) == below + {n - 1};
      } else {
        assert (set o | o in offsets && 0 <= o < n) == below;
      }
    }
  }
}
