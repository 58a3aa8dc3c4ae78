/**
 * The timeline organizer of src/main.rs: keep the events the queried user
 * authored that are not deletions, sort them stably by (local calendar day,
 * repository name), and collapse runs of equal keys into groups, as
 * `filter`, `sorted_by` and `group_by` do.
 *
 * The local calendar day of an instant depends on the machine's time zone;
 * it is a parameter `localDay` mapping an instant to a day number, so that
 * every fact below holds whatever the time zone.
 */
module Organizer {
  import opened Payloads
  import opened Text
  import opened Seqs

  // --------------------------------------------------------------- filter

  const DeleteEventType: string := "DeleteEvent"

  /** An event is reported when the queried user authored it and it is not a deletion. */
  predicate Kept(e: Event, username: string) {
    e.eventType != DeleteEventType && e.actorLogin == username
  }

  /**
   * The kept events, in their original order. Every kept event satisfies the
   * predicate, and each event satisfying it is kept exactly as many times as
   * it occurs in the input.
   */
  function Filter(events: seq<Event>, username: string): (r: seq<Event>)
    ensures forall e :: e in r ==> Kept(e, username)
    ensures forall e :: multiset(r)[e] == if Kept(e, username) then multiset(events)[e] else 0
    ensures |r| <= |events|
  {
    if events == [] then []
    else
      assert events == [events[0]] + events[1..];
      (if Kept(events[0], username) then [events[0]] else []) + Filter(events[1..], username)
  }

  lemma FilterCons(x: Event, t: seq<Event>, username: string)
    ensures Filter([x] + t, username) == (if Kept(x, username) then [x] else []) + Filter(t, username)
  {
    assert ([x] + t)[0] == x;
    assert ([x] + t)[1..] == t;
  }

  /** Filtering a concatenation filters each part: kept events keep their relative order. */
  lemma {:induction false} FilterAppend(a: seq<Event>, b: seq<Event>, username: string)
    ensures Filter(a + b, username) == Filter(a, username) + Filter(b, username)
  {
    if a == [] {
      assert a + b == b;
    } else {
      var x, t := a[0], a[1..];
      var h := if Kept(x, username) then [x] else [];
      HeadTail(a);
      AppendAssoc([x], t, b);
      FilterCons(x, t + b, username);
      FilterCons(x, t, username);
      FilterAppend(t, b, username);
      AppendAssoc(h, Filter(t, username), Filter(b, username));
    }
  }

  /** Filtering its own output changes nothing. */
  lemma {:induction false} FilterIdempotent(events: seq<Event>, username: string)
    ensures Filter(Filter(events, username), username) == Filter(events, username)
  {
    if events != [] {
      var x, t := events[0], events[1..];
      var head := if Kept(x, username) then [x] else [];
      assert events == [x] + t;
      FilterCons(x, t, username);
      FilterIdempotent(t, username);
      FilterAppend(head, Filter(t, username), username);
      if head != [] {
        FilterCons(x, [], username);
        assert [x] + [] == [x];
        assert Filter([], username) == [];
      }
    }
  }

  // ----------------------------------------------------------------- keys

  /** The sort and group key: local calendar day, then repository name. */
  datatype Key = Key(day: int, repo: string)

  function KeyOf(e: Event, localDay: int -> int): Key {
    Key(localDay(e.createdAt), e.repoName)
  }

  /** The comparator of `sorted_by`: day first, then repository name lexicographically. */
  predicate KeyLe(a: Key, b: Key) {
    a.day < b.day || (a.day == b.day && StrLe(a.repo, b.repo))
  }

  predicate KeyLt(a: Key, b: Key) {
    KeyLe(a, b) && a != b
  }

  lemma KeyLeReflexive(a: Key)
    ensures KeyLe(a, a)
  {
    StrLeReflexive(a.repo);
  }

  lemma KeyLeTotal(a: Key, b: Key)
    ensures KeyLe(a, b) || KeyLe(b, a)
  {
    StrLeTotal(a.repo, b.repo);
  }

  lemma KeyLeAntisymmetric(a: Key, b: Key)
    requires KeyLe(a, b) && KeyLe(b, a)
    ensures a == b
  {
    StrLeAntisymmetric(a.repo, b.repo);
  }

  lemma KeyLeTransitive(a: Key, b: Key, c: Key)
    requires KeyLe(a, b) && KeyLe(b, c)
    ensures KeyLe(a, c)
  {
    if a.day == b.day == c.day {
      StrLeTransitive(a.repo, b.repo, c.repo);
    }
  }

  lemma KeyLtTransitive(a: Key, b: Key, c: Key)
    requires KeyLt(a, b) && KeyLt(b, c)
    ensures KeyLt(a, c)
  {
    KeyLeTransitive(a, b, c);
    if a == c {
      KeyLeAntisymmetric(a, b);
    }
  }

  // ----------------------------------------------------------------- sort

  /** Each event's key is at most the next one's. */
  predicate Sorted(s: seq<Event>, localDay: int -> int) {
    forall i :: 0 <= i < |s| - 1 ==> KeyLe(KeyOf(s[i], localDay), KeyOf(s[i + 1], localDay))
  }

  /** In a sorted sequence every earlier key is at most every later one. */
  lemma {:induction false} SortedOrdered(s: seq<Event>, localDay: int -> int, i: int, j: int)
    requires Sorted(s, localDay)
    requires 0 <= i <= j < |s|
    ensures KeyLe(KeyOf(s[i], localDay), KeyOf(s[j], localDay))
    decreases j - i
  {
    if i == j {
      KeyLeReflexive(KeyOf(s[i], localDay));
    } else {
      SortedOrdered(s, localDay, i + 1, j);
      KeyLeTransitive(KeyOf(s[i], localDay), KeyOf(s[i + 1], localDay), KeyOf(s[j], localDay));
    }
  }

  /**
   * Insert x before the first element whose key is not below x's, so that x
   * stays ahead of the equal-keyed elements that came after it in the input.
   */
  function Insert(x: Event, s: seq<Event>, localDay: int -> int): (r: seq<Event>)
    requires Sorted(s, localDay)
    ensures Sorted(r, localDay)
    ensures multiset(r) == multiset(s) + multiset{x}
    ensures |r| == |s| + 1 && (r[0] == x || (|s| > 0 && r[0] == s[0]))
  {
    if s == [] then [x]
    else if KeyLe(KeyOf(x, localDay), KeyOf(s[0], localDay)) then [x] + s
    else
      KeyLeTotal(KeyOf(x, localDay), KeyOf(s[0], localDay));
      var rest := Insert(x, s[1..], localDay);
      assert s == [s[0]] + s[1..];
      [s[0]] + rest
  }

  /** `sorted_by` with the (day, repo) comparator: a stable sort. */
  function SortByKey(s: seq<Event>, localDay: int -> int): (r: seq<Event>)
    ensures Sorted(r, localDay)
    ensures multiset(r) == multiset(s)
    ensures |r| == |s|
  {
    if s == [] then []
    else
      assert s == [s[0]] + s[1..];
      Insert(s[0], SortByKey(s[1..], localDay), localDay)
  }

  /** The events of s whose key is k, in order. */
  function WithKey(s: seq<Event>, k: Key, localDay: int -> int): seq<Event> {
    if s == [] then []
    else (if KeyOf(s[0], localDay) == k then [s[0]] else []) + WithKey(s[1..], k, localDay)
  }

  lemma WithKeyCons(x: Event, s: seq<Event>, k: Key, localDay: int -> int)
    ensures WithKey([x] + s, k, localDay)
            == (if KeyOf(x, localDay) == k then [x] else []) + WithKey(s, k, localDay)
  {
    assert ([x] + s)[0] == x;
    assert ([x] + s)[1..] == s;
  }

  lemma {:induction false} InsertStable(x: Event, s: seq<Event>, k: Key, localDay: int -> int)
    requires Sorted(s, localDay)
    ensures WithKey(Insert(x, s, localDay), k, localDay)
            == (if KeyOf(x, localDay) == k then [x] else []) + WithKey(s, k, localDay)
  {
    if s == [] {
      assert Insert(x, s, localDay) == [x] + s;
      WithKeyCons(x, s, k, localDay);
    } else if KeyLe(KeyOf(x, localDay), KeyOf(s[0], localDay)) {
      assert Insert(x, s, localDay) == [x] + s;
      WithKeyCons(x, s, k, localDay);
    } else {
      var rest := Insert(x, s[1..], localDay);
      var hx := if KeyOf(x, localDay) == k then [x] else [];
      var h0 := if KeyOf(s[0], localDay) == k then [s[0]] else [];
      assert Insert(x, s, localDay) == [s[0]] + rest;
      assert s == [s[0]] + s[1..];
      WithKeyCons(s[0], rest, k, localDay);
      InsertStable(x, s[1..], k, localDay);
      WithKeyCons(s[0], s[1..], k, localDay);
      if KeyOf(x, localDay) == k && KeyOf(s[0], localDay) == k {
        KeyLeReflexive(k);
        assert false;
      }
      var w := WithKey(s[1..], k, localDay);
      assert WithKey(Insert(x, s, localDay), k, localDay) == h0 + (hx + w);
      assert WithKey(s, k, localDay) == h0 + w;
      if hx == [] {
        assert hx + (h0 + w) == h0 + w;
        assert h0 + (hx + w) == h0 + w;
      } else {
        assert h0 == [];
        assert h0 + (hx + w) == hx + w;
        assert h0 + w == w;
      }
    }
  }

  /** Stability: events with the same key come out in the order they went in. */
  lemma {:induction false} SortStable(s: seq<Event>, k: Key, localDay: int -> int)
    ensures WithKey(SortByKey(s, localDay), k, localDay) == WithKey(s, k, localDay)
  {
    if s != [] {
      SortStable(s[1..], k, localDay);
      InsertStable(s[0], SortByKey(s[1..], localDay), k, localDay);
    }
  }

  // ---------------------------------------------------------------- group

  /** A group: its key and the run of events that share it. */
  datatype Group = Group(key: Key, events: seq<Event>)

  /** All the groups' events, group after group. */
  function Flatten(gs: seq<Group>): seq<Event> {
    if gs == [] then [] else gs[0].events + Flatten(gs[1..])
  }

  /** A group is a non-empty run of events that all have the group's key. */
  predicate WellFormedGroup(g: Group, localDay: int -> int) {
    |g.events| > 0 && forall e :: e in g.events ==> KeyOf(e, localDay) == g.key
  }

  /**
   * `group_by` on the key: the maximal runs of equal keys. The groups put
   * back together are the input; each is non-empty and keyed by its events;
   * neighbouring groups have different keys.
   */
  function GroupRuns(s: seq<Event>, localDay: int -> int): (r: seq<Group>)
    ensures Flatten(r) == s
    ensures forall i :: 0 <= i < |r| ==> WellFormedGroup(r[i], localDay)
    ensures forall i :: 0 <= i < |r| - 1 ==> r[i].key != r[i + 1].key
    ensures s != [] ==> |r| > 0 && r[0].key == KeyOf(s[0], localDay)
    ensures |r| <= |s|
  {
    if s == [] then []
    else
      var rest := GroupRuns(s[1..], localDay);
      var k := KeyOf(s[0], localDay);
      if rest != [] && rest[0].key == k then
        var r := [Group(k, [s[0]] + rest[0].events)] + rest[1..];
        assert r[1..] == rest[1..];
        assert Flatten(rest) == rest[0].events + Flatten(rest[1..]);
        r
      else
        var r := [Group(k, [s[0]])] + rest;
        assert r[1..] == rest;
        r
  }

  /** Group keys strictly increase from one group to any later one. */
  predicate KeysIncreasing(gs: seq<Group>) {
    forall i, j :: 0 <= i < j < |gs| ==> KeyLt(gs[i].key, gs[j].key)
  }

  /** Grouping a sorted sequence yields strictly increasing, hence distinct, keys. */
  lemma {:induction false} GroupKeysIncreasing(s: seq<Event>, localDay: int -> int)
    requires Sorted(s, localDay)
    ensures KeysIncreasing(GroupRuns(s, localDay))
  {
    if s != [] {
      var rest := GroupRuns(s[1..], localDay);
      var k := KeyOf(s[0], localDay);
      assert Sorted(s[1..], localDay);
      GroupKeysIncreasing(s[1..], localDay);
      if !(rest != [] && rest[0].key == k) && rest != [] {
        var r := GroupRuns(s, localDay);
        assert r == [Group(k, [s[0]])] + rest;
        assert KeyLt(k, rest[0].key);
        forall j | 1 <= j < |r|
          ensures KeyLt(r[0].key, r[j].key)
        {
          if j > 1 {
            KeyLtTransitive(k, rest[0].key, rest[j - 1].key);
          }
        }
      }
    }
  }

  /** In the groups of a sorted sequence, two events with the same key are in the same group. */
  lemma SameKeySameGroup(s: seq<Event>, localDay: int -> int, i: nat, j: nat, a: Event, b: Event)
    requires Sorted(s, localDay)
    requires i < |GroupRuns(s, localDay)| && j < |GroupRuns(s, localDay)|
    requires a in GroupRuns(s, localDay)[i].events && b in GroupRuns(s, localDay)[j].events
    requires KeyOf(a, localDay) == KeyOf(b, localDay)
    ensures i == j
  {
    GroupKeysIncreasing(s, localDay);
  }

  // ------------------------------------------------------------- organize

  /**
   * The whole organizer: filter, sort, group. Putting the groups back
   * together gives the sorted kept events; the groups are well formed and
   * their keys strictly increase.
   */
  function Organize(events: seq<Event>, username: string, localDay: int -> int): (r: seq<Group>)
    ensures Flatten(r) == SortByKey(Filter(events, username), localDay)
    ensures forall i :: 0 <= i < |r| ==> WellFormedGroup(r[i], localDay)
    ensures KeysIncreasing(r)
  {
    var sorted := SortByKey(Filter(events, username), localDay);
    GroupKeysIncreasing(sorted, localDay);
    GroupRuns(sorted, localDay)
  }
}
