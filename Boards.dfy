/**
 * The read-only views of a guild's levels record in bot.js: the order of the
 * level scoreboard (getLevelboardText), the rank shown by /level, and the
 * voice penalty shown by /voicecooldown.
 *
 * `Object.entries(serverData.users)` is given as a sequence of standings in
 * the object's enumeration order; the text layout (padding, digit grouping,
 * fetched usernames) is not modelled.
 */
module Boards {
  import opened Sorting
  import opened Decay
  import opened Ledger

  /** One `[userId, userData]` pair of `Object.entries(serverData.users)`. */
  datatype Standing = Standing(id: UserId, user: UserRecord)

  /** How many users the level scoreboard shows. */
  const LevelboardSize: nat := 15

  /** The level scoreboard: the placeholder text for a guild without users, or its rows. */
  datatype Levelboard = NoUsersYet | Board(rows: seq<Standing>)

  /** The levelboard order: level first, XP breaks ties. */
  function LevelKey(s: Standing): SortKey {
    SortKey(s.user.level as real, s.user.xp)
  }

  /**
   * The levelboard comparator of getLevelboardText, `b.level - a.level`, or
   * `b.xp - a.xp` on equal levels. Array.prototype.sort puts a first exactly
   * when it is negative, that is when a's key is ahead of b's.
   */
  function LevelboardCompare(a: Standing, b: Standing): (c: real)
    ensures c < 0.0 <==> Ahead(LevelKey(a), LevelKey(b))
    ensures c > 0.0 <==> Ahead(LevelKey(b), LevelKey(a))
  {
    if b.user.level != a.user.level then (b.user.level - a.user.level) as real
    else b.user.xp - a.user.xp
  }

  /** getLevelboardText's selection: sort by level and XP, keep the top 15. */
  function LevelboardOf(entries: seq<Standing>): (b: Levelboard)
    ensures b.NoUsersYet? <==> entries == []
    ensures b.Board? ==> |b.rows| == MinInt(LevelboardSize, |entries|)
  {
    if entries == [] then NoUsersYet
    else Board(Take(Sort(entries, LevelKey), LevelboardSize))
  }

  /**
   * The board shows top users: its rows are sorted, are drawn from the
   * users, and no user left off the board is ahead of a user on it.
   */
  lemma LevelboardIsTop(entries: seq<Standing>)
    requires entries != []
    ensures var rows := LevelboardOf(entries).rows;
      && SortedBy(rows, LevelKey)
      && multiset(rows) <= multiset(entries)
      && forall x, y :: x in rows && y in multiset(entries) - multiset(rows) ==>
           !Ahead(LevelKey(y), LevelKey(x))
  {
    var r := Sort(entries, LevelKey);
    var rows := LevelboardOf(entries).rows;
    var n := |rows|;
    SortSorted(entries, LevelKey);
    assert rows == r[..n];
    assert r == r[..n] + r[n..];
    assert multiset(r) == multiset(r[..n]) + multiset(r[n..]);
    PrefixSorted(r, n, LevelKey);
    forall x, y | x in rows && y in multiset(entries) - multiset(rows)
      ensures !Ahead(LevelKey(y), LevelKey(x))
    {
      var i :| 0 <= i < n && r[i] == x;
      assert y in multiset(r[n..]);
      var j :| 0 <= j < |r[n..]| && r[n..][j] == y;
      assert r[n + j] == y;
    }
  }

  /** A prefix of a sorted sequence is sorted. */
  lemma PrefixSorted<T>(s: seq<T>, n: nat, key: T -> SortKey)
    requires SortedBy(s, key) && n <= |s|
    ensures SortedBy(s[..n], key)
  {
    forall i, j | 0 <= i < j < n ensures !Ahead(key(s[..n][j]), key(s[..n][i])) {
      assert s[..n][j] == s[j] && s[..n][i] == s[i];
    }
  }

  /**
   * Users tied on both level and XP appear on the board in the order the
   * users object lists them: for every key, the board's users with that key
   * are the first ones among all users with that key.
   */
  lemma LevelboardKeepsTies(entries: seq<Standing>, k: SortKey)
    requires entries != []
    ensures var tied := WithKey(LevelboardOf(entries).rows, LevelKey, k);
      var all := WithKey(entries, LevelKey, k);
      |tied| <= |all| && tied == all[..|tied|]
  {
    var r := Sort(entries, LevelKey);
    var n := |LevelboardOf(entries).rows|;
    assert r == r[..n] + r[n..];
    WithKeyAppend(r[..n], r[n..], LevelKey, k);
    SortStable(entries, LevelKey, k);
  }

  // ------------------------------------------------------------------ /level

  /** The /level rank order: XP alone, descending. */
  function XpKey(s: Standing): SortKey {
    SortKey(s.user.xp, 0.0)
  }

  /** The rank comparator of /level, `b.xp - a.xp`: negative exactly when a has more XP. */
  function RankCompare(a: Standing, b: Standing): (c: real)
    ensures c < 0.0 <==> Ahead(XpKey(a), XpKey(b))
    ensures c > 0.0 <==> Ahead(XpKey(b), XpKey(a))
  {
    b.user.xp - a.user.xp
  }

  /** findIndex: the first position of the user, or -1. */
  function IndexOf(s: seq<Standing>, id: UserId): (i: int)
    ensures -1 <= i < |s|
    ensures i == -1 <==> forall j :: 0 <= j < |s| ==> s[j].id != id
    ensures 0 <= i ==> s[i].id == id && forall j :: 0 <= j < i ==> s[j].id != id
  {
    if s == [] then -1
    else if s[0].id == id then 0
    else
      var i := IndexOf(s[1..], id);
      if i == -1 then -1 else i + 1
  }

  /** The rank /level shows: one plus the user's position in XP order, 0 when absent. */
  function Rank(entries: seq<Standing>, id: UserId): (rank: nat)
    ensures rank <= |entries|
    ensures rank > 0 ==> Sort(entries, XpKey)[rank - 1].id == id
  {
    IndexOf(Sort(entries, XpKey), id) + 1
  }

  /**
   * The rank places the user: 0 exactly when the user has no entry; otherwise
   * every user ranked above has at least the user's XP, every user ranked
   * below has at most it, and the users at the ranks are the guild's users.
   */
  lemma RankPlaces(entries: seq<Standing>, id: UserId)
    ensures var rank := Rank(entries, id);
      && (rank == 0 <==> forall e :: e in entries ==> e.id != id)
      && (rank > 0 ==>
            var r := Sort(entries, XpKey);
            var me := r[rank - 1];
            && me.id == id && me in entries
            && (forall j :: 0 <= j < rank - 1 ==> r[j].id != id && r[j].user.xp >= me.user.xp)
            && (forall j :: rank <= j < |r| ==> r[j].user.xp <= me.user.xp))
  {
    var r := Sort(entries, XpKey);
    var rank := Rank(entries, id);
    SortSorted(entries, XpKey);
    if rank == 0 {
      forall e | e in entries ensures e.id != id {
        assert e in multiset(r);
      }
    } else {
      var me := r[rank - 1];
      assert me in multiset(entries);
      forall j | 0 <= j < rank - 1 ensures r[j].user.xp >= me.user.xp {
        assert !Ahead(XpKey(me), XpKey(r[j]));
      }
      forall j | rank <= j < |r| ensures r[j].user.xp <= me.user.xp {
        assert !Ahead(XpKey(r[j]), XpKey(me));
      }
    }
  }

  /** The user with strictly the most XP is ranked first. */
  lemma RankLeader(entries: seq<Standing>, i: nat)
    requires i < |entries|
    requires forall j :: 0 <= j < |entries| && j != i ==> entries[j].user.xp < entries[i].user.xp
    ensures Rank(entries, entries[i].id) == 1
  {
    var r := Sort(entries, XpKey);
    var top := entries[i];
    SortSorted(entries, XpKey);
    assert top in multiset(r);
    var k :| 0 <= k < |r| && r[k] == top;
    assert r[0] in multiset(entries);
    var m :| 0 <= m < |entries| && entries[m] == r[0];
    if m != i {
      // r[0] would have less XP than top, which sorts after it.
      assert false;
    }
  }

  // --------------------------------------------------------- /voicecooldown

  /**
   * The /voicecooldown readout for a user: 0 without a voice record,
   * otherwise the stored counter less five minutes per whole idle hour,
   * floored at 0 and not capped.
   */
  function VoiceCooldown(lastVoiceActivity: map<UserId, VoiceActivity>, id: UserId, now: int): (minutes: nat)
    ensures id !in lastVoiceActivity ==> minutes == 0
    ensures id in lastVoiceActivity && now >= lastVoiceActivity[id].timestamp ==>
      minutes <= lastVoiceActivity[id].voiceMinuteCount
  {
    if id in lastVoiceActivity then
      var lastVoice := lastVoiceActivity[id];
      VoicePenaltyRemaining(lastVoice.voiceMinuteCount, now - lastVoice.timestamp)
    else 0
  }

  /**
   * The readout predicts the next voice minute: unless the idle recovery has
   * cleared more than the whole counter, the next addVoiceXP stores the
   * readout plus one, capped at 50.
   */
  lemma VoiceCooldownPredictsNextMinute(lastVoiceActivity: map<UserId, VoiceActivity>, id: UserId, now: int)
    requires id in lastVoiceActivity
    ensures var a := lastVoiceActivity[id];
      var next := VoiceCounterNext(a.voiceMinuteCount, now - a.timestamp);
      var shown := VoiceCooldown(lastVoiceActivity, id, now);
      && (a.voiceMinuteCount >= VoiceRecoveryPerHour * IdleHours(now - a.timestamp) ==>
            next == MinInt(VoiceCap, shown + 1))
      && (a.voiceMinuteCount < VoiceRecoveryPerHour * IdleHours(now - a.timestamp) ==>
            shown == 0 && next == 0)
  {
    var a := lastVoiceActivity[id];
    VoiceCounterAgainstPenalty(a.voiceMinuteCount, now - a.timestamp);
  }
}
