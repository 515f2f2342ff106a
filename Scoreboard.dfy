/**
 * The survival scoreboard of bot.js: `upsertEntry`, which replaces a user's
 * score for one difficulty, and the grouping half of getScoreboardText, which
 * files the entries into the six difficulty buckets and sorts each bucket by
 * time survived, longest first.
 *
 * The scoreboard's message and channel ids and the file it is saved to are
 * not modelled; a server's scoreboard is its list of entries.
 */
module Scoreboard {
  import opened Sorting
  import opened Ledger

  /** One submitted score: the time a user survived on one difficulty. */
  datatype Entry = Entry(userId: UserId, username: string, day: int, hour: int, minute: int, difficulty: string)

  /** The difficulties the scoreboard lists, in the order it lists them. */
  const Difficulties: seq<string> := ["MISERY", "INTERLOPER", "STALKER", "VOYAGEUR", "PILGRIM", "CUSTOM"]

  /** The upper-case form of one character (ASCII letters only). */
  function UpperChar(c: char): (u: char)
    ensures !('a' <= u <= 'z')
    ensures 'a' <= c <= 'z' ==> 'A' <= u <= 'Z' && u as int - 'A' as int == c as int - 'a' as int
    ensures !('a' <= c <= 'z') ==> u == c
  {
    if 'a' <= c <= 'z' then (c as int - 'a' as int + 'A' as int) as char else c
  }

  /** String.prototype.toUpperCase, on ASCII letters. */
  function Upper(s: string): (u: string)
    ensures |u| == |s|
    ensures forall i :: 0 <= i < |s| ==> u[i] == UpperChar(s[i])
  {
    if s == [] then [] else [UpperChar(s[0])] + Upper(s[1..])
  }

  /** Upper-casing twice changes nothing more. */
  lemma UpperIdempotent(s: string)
    ensures Upper(Upper(s)) == Upper(s)
  {
    var u := Upper(s);
    forall i | 0 <= i < |s| ensures Upper(u)[i] == u[i] {
      assert !('a' <= u[i] <= 'z');
    }
  }

  /** Every difficulty the /score command offers is already upper case. */
  lemma DifficultiesAreUpper()
    ensures forall d :: d in Difficulties ==> Upper(d) == d
  {
    forall d | d in Difficulties ensures Upper(d) == d {
      forall i | 0 <= i < |d| ensures UpperChar(d[i]) == d[i] {
        assert 'A' <= d[i] <= 'Z';
      }
    }
  }

  /** The listed difficulties are distinct: no two start with the same letter. */
  lemma DifficultiesDistinct(k: nat)
    requires k < |Difficulties|
    ensures Difficulties[k] !in Difficulties[..k]
  {
    forall j | 0 <= j < k ensures Difficulties[j][0] != Difficulties[k][0] {
    }
  }

  // ---------------------------------------------------------------- upsertEntry

  /** The entry upsertEntry removes: the same user and the difficulty exactly as given. */
  predicate Matches(e: Entry, userId: UserId, difficulty: string) {
    e.userId == userId && e.difficulty == difficulty
  }

  /** `entries.filter(e => !(e.userId === userId && e.difficulty === difficulty))`. */
  function Drop(s: seq<Entry>, userId: UserId, difficulty: string): (r: seq<Entry>)
    ensures |r| <= |s|
    ensures forall e :: e in r ==> e in s && !Matches(e, userId, difficulty)
  {
    if s == [] then []
    else (if Matches(s[0], userId, difficulty) then [] else [s[0]]) + Drop(s[1..], userId, difficulty)
  }

  /** a is s with some elements left out, the rest in the same order. */
  predicate SubsequenceOf<T(==)>(a: seq<T>, s: seq<T>)
    decreases |s|
  {
    a == [] || (s != [] && ((a[0] == s[0] && SubsequenceOf(a[1..], s[1..])) || SubsequenceOf(a, s[1..])))
  }

  /** The entries the filter keeps stay in their order. */
  lemma {:induction false} DropKeepsOrder(s: seq<Entry>, userId: UserId, difficulty: string)
    ensures SubsequenceOf(Drop(s, userId, difficulty), s)
  {
    if s != [] {
      DropKeepsOrder(s[1..], userId, difficulty);
      var r := Drop(s, userId, difficulty);
      if Matches(s[0], userId, difficulty) {
        assert r == Drop(s[1..], userId, difficulty);
      } else {
        assert r[0] == s[0] && r[1..] == Drop(s[1..], userId, difficulty);
      }
    }
  }

  /** The filter removes every copy of a matching entry and keeps every copy of any other. */
  lemma {:induction false} DropCounts(s: seq<Entry>, userId: UserId, difficulty: string, e: Entry)
    ensures multiset(Drop(s, userId, difficulty))[e] == if Matches(e, userId, difficulty) then 0 else multiset(s)[e]
  {
    if s != [] {
      DropCounts(s[1..], userId, difficulty, e);
      var head := if Matches(s[0], userId, difficulty) then [] else [s[0]];
      assert multiset(Drop(s, userId, difficulty)) == multiset(head) + multiset(Drop(s[1..], userId, difficulty));
      assert s == [s[0]] + s[1..];
      assert multiset(s) == multiset{s[0]} + multiset(s[1..]);
    }
  }

  /** Filtering distributes over concatenation. */
  lemma {:induction false} DropAppend(a: seq<Entry>, b: seq<Entry>, userId: UserId, difficulty: string)
    ensures Drop(a + b, userId, difficulty) == Drop(a, userId, difficulty) + Drop(b, userId, difficulty)
  {
    if a == [] {
      assert a + b == b;
    } else {
      var head := if Matches(a[0], userId, difficulty) then [] else [a[0]];
      calc {
        Drop(a + b, userId, difficulty);
        == { assert (a + b)[0] == a[0] && (a + b)[1..] == a[1..] + b; }
        head + Drop(a[1..] + b, userId, difficulty);
        == { DropAppend(a[1..], b, userId, difficulty); }
        head + (Drop(a[1..], userId, difficulty) + Drop(b, userId, difficulty));
        ==
        Drop(a, userId, difficulty) + Drop(b, userId, difficulty);
      }
    }
  }

  /** Filtering twice removes nothing more. */
  lemma {:induction false} DropIdempotent(s: seq<Entry>, userId: UserId, difficulty: string)
    ensures Drop(Drop(s, userId, difficulty), userId, difficulty) == Drop(s, userId, difficulty)
  {
    if s != [] {
      DropIdempotent(s[1..], userId, difficulty);
      var head := if Matches(s[0], userId, difficulty) then [] else [s[0]];
      DropAppend(head, Drop(s[1..], userId, difficulty), userId, difficulty);
    }
  }

  /** The entries after upsertEntry: the old ones without the user's entry for the difficulty, then the new one. */
  function Upserted(entries: seq<Entry>, userId: UserId, username: string, day: int, hour: int, minute: int,
                    difficulty: string): (r: seq<Entry>)
    ensures |r| >= 1 && r[|r| - 1] == Entry(userId, username, day, hour, minute, Upper(difficulty))
    ensures |r| <= |entries| + 1
  {
    Drop(entries, userId, difficulty) + [Entry(userId, username, day, hour, minute, Upper(difficulty))]
  }

  /**
   * For a difficulty in upper case, as every /score choice is, upsertEntry
   * leaves exactly one entry for the user and the difficulty, and it is the
   * last one.
   */
  lemma UpsertLeavesOne(entries: seq<Entry>, userId: UserId, username: string, day: int, hour: int, minute: int,
                        difficulty: string)
    requires Upper(difficulty) == difficulty
    ensures var r := Upserted(entries, userId, username, day, hour, minute, difficulty);
      && Matches(r[|r| - 1], userId, difficulty)
      && forall j :: 0 <= j < |r| - 1 ==> !Matches(r[j], userId, difficulty)
  {
    var r := Upserted(entries, userId, username, day, hour, minute, difficulty);
    var kept := Drop(entries, userId, difficulty);
    forall j | 0 <= j < |r| - 1 ensures !Matches(r[j], userId, difficulty) {
      assert r[j] == kept[j] && kept[j] in kept;
    }
  }

  /**
   * upsertEntry leaves every other entry where it was: the entries before the
   * new one are the old entries in their old order with some left out, and
   * only the user's entries for the difficulty are left out.
   */
  lemma UpsertKeepsOthers(entries: seq<Entry>, userId: UserId, username: string, day: int, hour: int, minute: int,
                          difficulty: string)
    requires Upper(difficulty) == difficulty
    ensures var r := Upserted(entries, userId, username, day, hour, minute, difficulty);
      && SubsequenceOf(r[..|r| - 1], entries)
      && forall e :: !Matches(e, userId, difficulty) ==> multiset(r)[e] == multiset(entries)[e]
  {
    var r := Upserted(entries, userId, username, day, hour, minute, difficulty);
    var kept := Drop(entries, userId, difficulty);
    assert r[..|r| - 1] == kept;
    DropKeepsOrder(entries, userId, difficulty);
    forall e | !Matches(e, userId, difficulty) ensures multiset(r)[e] == multiset(entries)[e] {
      DropCounts(entries, userId, difficulty, e);
      assert multiset(r) == multiset(kept) + multiset{r[|r| - 1]};
    }
  }

  /** Submitting again for the same difficulty replaces the earlier score: only the later one remains. */
  lemma ResubmitReplaces(entries: seq<Entry>, userId: UserId, difficulty: string,
                         name1: string, day1: int, hour1: int, minute1: int,
                         name2: string, day2: int, hour2: int, minute2: int)
    requires Upper(difficulty) == difficulty
    ensures Upserted(Upserted(entries, userId, name1, day1, hour1, minute1, difficulty),
                     userId, name2, day2, hour2, minute2, difficulty)
         == Upserted(entries, userId, name2, day2, hour2, minute2, difficulty)
  {
    var kept := Drop(entries, userId, difficulty);
    var first := Entry(userId, name1, day1, hour1, minute1, difficulty);
    DropAppend(kept, [first], userId, difficulty);
    DropIdempotent(entries, userId, difficulty);
    assert Drop([first], userId, difficulty) == [];
  }

  /** A server's scoreboard entries, which /score updates in place. */
  class ServerScoreboard {
    var entries: seq<Entry>

    /** A server that has no scoreboard yet starts with no entries. */
    constructor()
      ensures entries == []
    {
      entries := [];
    }

    /** upsertEntry: drop the user's entry for the difficulty, then append the new score. */
    method UpsertEntry(userId: UserId, username: string, day: int, hour: int, minute: int, difficulty: string)
      modifies this
      ensures entries == Upserted(old(entries), userId, username, day, hour, minute, difficulty)
    {
      entries := Drop(entries, userId, difficulty);
      entries := entries + [Entry(userId, username, day, hour, minute, Upper(difficulty))];
    }
  }

  // ------------------------------------------------------------ getScoreboardText

  /** The time survived in minutes: `day * 24 * 60 + hour * 60 + minute`. */
  function TotalMinutes(e: Entry): int {
    e.day * 24 * 60 + e.hour * 60 + e.minute
  }

  /** The scoreboard order: longest time survived first. */
  function TimeKey(e: Entry): SortKey {
    SortKey(TotalMinutes(e) as real, 0.0)
  }

  /** The bucket comparator, `totalB - totalA`: negative exactly when a survived longer. */
  function ScoreCompare(a: Entry, b: Entry): (c: int)
    ensures c < 0 <==> Ahead(TimeKey(a), TimeKey(b))
    ensures c > 0 <==> Ahead(TimeKey(b), TimeKey(a))
  {
    TotalMinutes(b) - TotalMinutes(a)
  }

  /** A subsequence stays one when an element is appended to the whole, whether or not it is kept. */
  lemma {:induction false} SubsequenceSnoc<T>(a: seq<T>, s: seq<T>, x: T)
    requires SubsequenceOf(a, s)
    ensures SubsequenceOf(a + [x], s + [x]) && SubsequenceOf(a, s + [x])
    decreases |s|
  {
    assert (a + [x])[0] == (if a == [] then x else a[0]);
    assert a != [] ==> (a + [x])[1..] == a[1..] + [x];
    if s == [] {
      assert a == [];
      assert (a + [x])[1..] == [];
    } else {
      assert (s + [x])[0] == s[0] && (s + [x])[1..] == s[1..] + [x];
      if a == [] {
        SubsequenceSnoc(a, s[1..], x);
      } else if a[0] == s[0] && SubsequenceOf(a[1..], s[1..]) {
        SubsequenceSnoc(a[1..], s[1..], x);
        if SubsequenceOf(a, s[1..]) {
          SubsequenceSnoc(a, s[1..], x);
        }
      } else {
        SubsequenceSnoc(a, s[1..], x);
      }
    }
  }

  /** The entries whose upper-cased difficulty is d, in submission order. */
  function Bucket(s: seq<Entry>, d: string): (r: seq<Entry>)
    ensures forall e :: e in r <==> e in s && Upper(e.difficulty) == d
  {
    if s == [] then []
    else
      var last := s[|s| - 1];
      assert s == s[..|s| - 1] + [last];
      Bucket(s[..|s| - 1], d) + (if Upper(last.difficulty) == d then [last] else [])
  }

  /** A bucket holds each entry of its difficulty as often as it was submitted, and no other entry. */
  lemma {:induction false} BucketCounts(s: seq<Entry>, d: string)
    ensures forall e :: multiset(Bucket(s, d))[e] == if Upper(e.difficulty) == d then multiset(s)[e] else 0
    decreases |s|
  {
    if s != [] {
      var init, last := s[..|s| - 1], s[|s| - 1];
      var tail := if Upper(last.difficulty) == d then [last] else [];
      assert s == init + [last];
      assert Bucket(s, d) == Bucket(init, d) + tail;
      BucketCounts(init, d);
      assert multiset(s) == multiset(init) + multiset{last};
      assert multiset(Bucket(s, d)) == multiset(Bucket(init, d)) + multiset(tail);
    }
  }

  /** A bucket keeps the entries in the order they were submitted. */
  lemma {:induction false} BucketInOrder(s: seq<Entry>, d: string)
    ensures SubsequenceOf(Bucket(s, d), s)
    decreases |s|
  {
    if s != [] {
      var init, last := s[..|s| - 1], s[|s| - 1];
      assert s == init + [last];
      BucketInOrder(init, d);
      SubsequenceSnoc(Bucket(init, d), init, last);
      if Upper(last.difficulty) == d {
        assert Bucket(s, d) == Bucket(init, d) + [last];
      } else {
        assert Bucket(s, d) == Bucket(init, d);
      }
    }
  }

  /**
   * The grouping of getScoreboardText: one bucket per listed difficulty,
   * each entry pushed into the bucket of its upper-cased difficulty (entries
   * of any other difficulty are skipped), then every bucket sorted.
   */
  method GroupAndSort(entries: seq<Entry>) returns (grouped: map<string, seq<Entry>>)
    ensures grouped.Keys == set d | d in Difficulties
    ensures forall d :: d in grouped ==> grouped[d] == Sort(Bucket(entries, d), TimeKey)
  {
    grouped := GroupEntries(entries);
    forall i, j | 0 <= i < j < |Difficulties| ensures Difficulties[i] != Difficulties[j] {
      DifficultiesDistinct(j);
      assert Difficulties[i] in Difficulties[..j];
    }
    grouped := SortBuckets(grouped, Difficulties);
  }

  /** The second half of the grouping: each named bucket sorted longest time first, the others untouched. */
  method SortBuckets(buckets: map<string, seq<Entry>>, names: seq<string>) returns (sorted: map<string, seq<Entry>>)
    requires forall i, j :: 0 <= i < j < |names| ==> names[i] != names[j]
    requires forall d :: d in names ==> d in buckets
    ensures sorted.Keys == buckets.Keys
    ensures forall d :: d in sorted ==> sorted[d] == if d in names then Sort(buckets[d], TimeKey) else buckets[d]
  {
    sorted := buckets;
    for k := 0 to |names|
      invariant sorted.Keys == buckets.Keys
      invariant forall d :: d in sorted ==> sorted[d] == if d in names[..k] then Sort(buckets[d], TimeKey) else buckets[d]
    {
      var name := names[k];
      assert name !in names[..k] by {
        forall i | 0 <= i < k ensures names[..k][i] != name {
          assert names[..k][i] == names[i];
        }
      }
      assert names[..k + 1] == names[..k] + [name];
      var before := sorted;
      sorted := before[name := Sort(before[name], TimeKey)];
      forall d | d in sorted
        ensures sorted[d] == if d in names[..k + 1] then Sort(buckets[d], TimeKey) else buckets[d]
      {
        if d != name {
          assert (d in names[..k + 1]) == (d in names[..k]);
        }
      }
    }
    assert names[..|names|] == names;
  }

  /** The first half of the grouping: every entry pushed into the bucket of its upper-cased difficulty. */
  method GroupEntries(entries: seq<Entry>) returns (grouped: map<string, seq<Entry>>)
    ensures grouped.Keys == set d | d in Difficulties
    ensures forall d :: d in grouped ==> grouped[d] == Bucket(entries, d)
  {
    grouped := map d | d in Difficulties :: [];
    for i := 0 to |entries|
      invariant grouped.Keys == set d | d in Difficulties
      invariant forall d :: d in grouped ==> grouped[d] == Bucket(entries[..i], d)
    {
      assert entries[..i + 1][..i] == entries[..i];
      var diff := Upper(entries[i].difficulty);
      if diff in grouped {
        grouped := grouped[diff := grouped[diff] + [entries[i]]];
      }
    }
    assert entries[..|entries|] == entries;
  }

  /**
   * What a bucket shows: exactly the entries of its difficulty, each as often
   * as it was submitted, longest time first, and entries with equal times in
   * submission order.
   */
  lemma ScoreboardBucket(entries: seq<Entry>, d: string)
    ensures var b := Sort(Bucket(entries, d), TimeKey);
      && (forall e :: e in b <==> e in entries && Upper(e.difficulty) == d)
      && multiset(b) == multiset(Bucket(entries, d))
      && (forall i, j :: 0 <= i < j < |b| ==> TotalMinutes(b[i]) >= TotalMinutes(b[j]))
      && (forall k :: WithKey(b, TimeKey, k) == WithKey(Bucket(entries, d), TimeKey, k))
  {
    var s := Bucket(entries, d);
    var b := Sort(s, TimeKey);
    SortSorted(s, TimeKey);
    forall e ensures e in b <==> e in s {
      assert e in b <==> e in multiset(b);
    }
    forall k ensures WithKey(b, TimeKey, k) == WithKey(s, TimeKey, k) {
      SortStable(s, TimeKey, k);
    }
  }
}
