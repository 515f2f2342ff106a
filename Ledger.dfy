/**
 * The per-guild XP ledger of bot.js: the guild record with its `users`,
 * `lastMessages` and `lastVoiceActivity` maps, and the two accrual
 * transactions addXP (one chat message) and addVoiceXP (one voice minute)
 * that update it in place.
 *
 * Each transaction is given as a pure transition on one user's records
 * (ChatAccrual, VoiceAccrual), about which the lemmas speak, and as a method
 * of the GuildLedger class that performs the source's steps in order and is
 * proved to produce exactly that transition, touching no other user.
 *
 * The clock (`now`, integer milliseconds), the Berlin calendar date (`today`)
 * and the server-tag check (`tagged`) are inputs.
 */
module Ledger {
  import opened LevelCurve
  import opened Decay
  import opened Words

  datatype Option<T> = None | Some(value: T)

  /** A Discord user id (a snowflake: a 64-bit number, kept as a decimal string by the bot). */
  type UserId = nat

  /** users[userId]: a user's XP, cached level, message count and daily-bonus date. */
  datatype UserRecord = UserRecord(
    username: string,
    xp: real,
    level: int,
    messageCount: nat,
    lastDailyBonus: Option<string>)

  /** lastMessages[userId]: when the user last chatted, and the chat counter. */
  datatype ChatActivity = ChatActivity(timestamp: int, messageCount: nat)

  /** lastVoiceActivity[userId]: the last voice minute, and the voice minute counter. */
  datatype VoiceActivity = VoiceActivity(timestamp: int, voiceMinuteCount: nat)

  /** What addXP and addVoiceXP return (unrounded). */
  datatype AccrualResult = AccrualResult(
    xpGain: real,
    totalXp: real,
    level: int,
    leveledUp: bool,
    oldLevel: int)

  /** The flat bonus for the first chat message of a calendar day. */
  const DailyBonusXp: real := 10.0

  /** The record a user gets on first activity. */
  function NewUser(username: string): UserRecord {
    UserRecord(username, 0.0, 1, 0, None)
  }

  const NoChatYet: ChatActivity := ChatActivity(0, 0)
  const NoVoiceYet: VoiceActivity := VoiceActivity(0, 0)

  /** A record whose XP is non-negative and whose cached level is the level of its XP. */
  ghost predicate Consistent(t: seq<int>, u: UserRecord) {
    0.0 <= u.xp && u.level == LevelFor(t, u.xp)
  }

  /** Every record of a `users` map is consistent. */
  ghost predicate AllConsistent(t: seq<int>, users: map<UserId, UserRecord>) {
    forall id :: id in users ==> Consistent(t, users[id])
  }

  /** Storing a consistent record keeps a consistent map consistent. */
  lemma StoreConsistent(t: seq<int>, users: map<UserId, UserRecord>, id: UserId, u: UserRecord)
    requires AllConsistent(t, users) && Consistent(t, u)
    ensures AllConsistent(t, users[id := u])
  {
  }

  /** The daily bonus gate: granted unless the bonus was already granted on `today`. */
  predicate GrantsDailyBonus(u: UserRecord, today: string): (granted: bool)
    ensures !granted <==> u.lastDailyBonus == Some(today)
    ensures u.lastDailyBonus == None ==> granted
  {
    u.lastDailyBonus != Some(today)
  }

  datatype ChatOutcome = ChatOutcome(user: UserRecord, activity: ChatActivity, result: AccrualResult)
  datatype VoiceOutcome = VoiceOutcome(user: UserRecord, activity: VoiceActivity, result: AccrualResult)

  /**
   * addXP on one user's records: the counter transition, the message's gain
   * computed from the counter it stores, the daily bonus, the XP, the level,
   * the message count and the timestamp.
   */
  function ChatAccrual(t: seq<int>, u: UserRecord, a: ChatActivity, username: string, wordCount: nat,
                       tagged: bool, today: string, now: int): (o: ChatOutcome)
    ensures o.activity.timestamp == now
    ensures o.activity.messageCount == ChatCounterNext(a.messageCount, now - a.timestamp)
    ensures o.result.xpGain
         == ChatGain(wordCount, now - a.timestamp, o.activity.messageCount, tagged)
            + (if GrantsDailyBonus(u, today) then DailyBonusXp else 0.0)
    ensures o.result.xpGain >= MinGain
    ensures o.user.xp == u.xp + o.result.xpGain == o.result.totalXp
    ensures o.user.level == o.result.level == LevelFor(t, o.user.xp)
    ensures o.result.oldLevel == u.level
    ensures o.result.leveledUp <==> o.result.level > o.result.oldLevel
    ensures o.user.messageCount == u.messageCount + 1
    ensures o.user.lastDailyBonus == Some(today)
    ensures o.user.username == username
  {
    var elapsed := now - a.timestamp;
    var count := ChatCounterNext(a.messageCount, elapsed);
    var bonus := GrantsDailyBonus(u, today);
    var gain := ChatGain(wordCount, elapsed, count, tagged) + (if bonus then DailyBonusXp else 0.0);
    var xp := u.xp + gain;
    var level := LevelFor(t, xp);
    ChatOutcome(
      UserRecord(username, xp, level, u.messageCount + 1,
                 if bonus then Some(today) else u.lastDailyBonus),
      ChatActivity(now, count),
      AccrualResult(gain, xp, level, level > u.level, u.level))
  }

  /**
   * addVoiceXP on one user's records: the voice counter transition, the
   * minute's gain computed from the counter it stores, the XP, the level and
   * the timestamp. The message count and the daily bonus are left alone.
   */
  function VoiceAccrual(t: seq<int>, u: UserRecord, a: VoiceActivity, username: string, tagged: bool,
                        now: int): (o: VoiceOutcome)
    ensures o.activity.timestamp == now
    ensures o.activity.voiceMinuteCount == VoiceCounterNext(a.voiceMinuteCount, now - a.timestamp)
    ensures o.activity.voiceMinuteCount <= VoiceCap
    ensures o.result.xpGain == VoiceGain(o.activity.voiceMinuteCount, tagged)
    ensures MinGain <= o.result.xpGain <= 2.0
    ensures o.user.xp == u.xp + o.result.xpGain == o.result.totalXp
    ensures o.user.level == o.result.level == LevelFor(t, o.user.xp)
    ensures o.result.oldLevel == u.level
    ensures o.result.leveledUp <==> o.result.level > o.result.oldLevel
    ensures o.user.messageCount == u.messageCount
    ensures o.user.lastDailyBonus == u.lastDailyBonus
    ensures o.user.username == username
  {
    var count := VoiceCounterNext(a.voiceMinuteCount, now - a.timestamp);
    var gain := VoiceGain(count, tagged);
    var xp := u.xp + gain;
    var level := LevelFor(t, xp);
    VoiceOutcome(
      u.(username := username, xp := xp, level := level),
      VoiceActivity(now, count),
      AccrualResult(gain, xp, level, level > u.level, u.level))
  }

  /**
   * The body of addXP between reading a user's records and writing them
   * back, step by step: the chat counter, the message's gain, the daily
   * bonus gate, the XP and the level looked up by getLevelFromXP.
   */
  method AccrueChat(t: seq<int>, u: UserRecord, a: ChatActivity, username: string, wordCount: nat,
                    tagged: bool, today: string, now: int)
    returns (user: UserRecord, activity: ChatActivity, result: AccrualResult)
    ensures ChatOutcome(user, activity, result) == ChatAccrual(t, u, a, username, wordCount, tagged, today, now)
  {
    var userData := u;
    var elapsed := now - a.timestamp;
    var messageCount: nat;
    if elapsed < FiveMinutesMs {
      messageCount := a.messageCount + 1;
    } else {
      messageCount := MaxInt(0, a.messageCount - elapsed / OneHourMs);
    }
    var xpGain := ChatGain(wordCount, elapsed, messageCount, tagged);

    if userData.lastDailyBonus != Some(today) {
      xpGain := xpGain + DailyBonusXp;
      userData := userData.(lastDailyBonus := Some(today));
    }

    var oldLevel := userData.level;
    var xp := userData.xp + xpGain;
    var level := GetLevelFromXp(t, xp);
    user := userData.(xp := xp, level := level, username := username,
                      messageCount := userData.messageCount + 1);
    activity := ChatActivity(now, messageCount);
    result := AccrualResult(xpGain, xp, level, level > oldLevel, oldLevel);
  }

  /**
   * The body of addVoiceXP between reading a user's records and writing them
   * back: five minutes recovered per whole idle hour, this minute counted,
   * the count capped, then the minute's gain, the XP and the level.
   */
  method AccrueVoice(t: seq<int>, u: UserRecord, a: VoiceActivity, username: string, tagged: bool, now: int)
    returns (user: UserRecord, activity: VoiceActivity, result: AccrualResult)
    ensures VoiceOutcome(user, activity, result) == VoiceAccrual(t, u, a, username, tagged, now)
  {
    var elapsed := now - a.timestamp;
    var recoveryAmount := (elapsed / OneHourMs) * VoiceRecoveryPerHour;
    var voiceMinuteCount := MaxInt(0, a.voiceMinuteCount - recoveryAmount + 1);
    voiceMinuteCount := MinInt(voiceMinuteCount, VoiceCap);

    var xpGain := VoiceGain(voiceMinuteCount, tagged);

    var oldLevel := u.level;
    var xp := u.xp + xpGain;
    var level := GetLevelFromXp(t, xp);
    user := u.(xp := xp, level := level, username := username);
    activity := VoiceActivity(now, voiceMinuteCount);
    result := AccrualResult(xpGain, xp, level, level > oldLevel, oldLevel);
  }

  /** A user's first record is consistent: no XP, level 1. */
  lemma NewUserConsistent(t: seq<int>, username: string)
    requires IsCurve(t)
    ensures Consistent(t, NewUser(username))
  {
    LevelForUnique(t, 0.0, 1);
  }

  /**
   * Both transactions keep a consistent record consistent, strictly raise its
   * XP and never lower its level.
   */
  lemma ChatAccrualKeepsConsistent(t: seq<int>, u: UserRecord, a: ChatActivity, username: string, wordCount: nat,
                                   tagged: bool, today: string, now: int)
    requires Consistent(t, u)
    ensures var o := ChatAccrual(t, u, a, username, wordCount, tagged, today, now);
      Consistent(t, o.user) && o.user.xp > u.xp && o.user.level >= u.level
  {
    var o := ChatAccrual(t, u, a, username, wordCount, tagged, today, now);
    LevelForMonotone(t, u.xp, o.user.xp);
  }

  lemma VoiceAccrualKeepsConsistent(t: seq<int>, u: UserRecord, a: VoiceActivity, username: string, tagged: bool, now: int)
    requires Consistent(t, u)
    ensures var o := VoiceAccrual(t, u, a, username, tagged, now);
      Consistent(t, o.user) && o.user.xp > u.xp && o.user.level >= u.level
  {
    var o := VoiceAccrual(t, u, a, username, tagged, now);
    LevelForMonotone(t, u.xp, o.user.xp);
  }

  /**
   * The daily bonus is granted once per date: a message earns its chat gain
   * plus 10 XP exactly when the gate opens, a second chat message on the same
   * date earns only its chat gain, and a message on another date earns the
   * bonus again.
   */
  lemma DailyBonusOncePerDay(t: seq<int>, u: UserRecord, a: ChatActivity, username: string,
                             words1: nat, tagged1: bool, now1: int,
                             words2: nat, tagged2: bool, today2: string, now2: int, today: string)
    ensures
      var o1 := ChatAccrual(t, u, a, username, words1, tagged1, today, now1);
      var o2 := ChatAccrual(t, o1.user, o1.activity, username, words2, tagged2, today2, now2);
      var chat1 := ChatGain(words1, now1 - a.timestamp, o1.activity.messageCount, tagged1);
      var chat2 := ChatGain(words2, now2 - now1, o2.activity.messageCount, tagged2);
      && (GrantsDailyBonus(u, today) ==> o1.result.xpGain == chat1 + DailyBonusXp)
      && (!GrantsDailyBonus(u, today) ==> o1.result.xpGain == chat1)
      && (today2 == today ==> o2.result.xpGain == chat2)
      && (today2 != today ==> o2.result.xpGain == chat2 + DailyBonusXp)
  {
  }

  /**
   * The fresh-user scenario: a first ten-word message, untagged, earns 1 + 10
   * XP and stays at level 1, on every level curve whose level-2 threshold is
   * ARK_XP_TABLE's 26 (see ArkIsCurve).
   */
  lemma FirstMessageScenario(t: seq<int>, username: string, today: string, now: int)
    requires IsCurve(t) && |t| > 1 && t[1] == 26
    requires now >= FiveMinutesMs
    ensures
      var o := ChatAccrual(t, NewUser(username), NoChatYet, username, 10, false, today, now);
      o.result.xpGain == 11.0 && o.result.level == 1 && !o.result.leveledUp && o.result.oldLevel == 1
  {
    ChatRestedFullRate(now);
    ChatGainUnfloored(10, now, 0, false);
    LevelForUnique(t, 11.0, 1);
  }


  /**
   * The level-up scenario: one XP short of level 20, a fifteen-word message
   * after a rest, with today's bonus already taken, brings the total to
   * 1932.5 and the user from level 19 to level 20. It holds on every level
   * curve whose thresholds for levels 19 to 21 are those of ARK_XP_TABLE
   * (1727, 1932 and 2151, see ArkLevelTwentyBoundary).
   */
  lemma LevelUpScenario(t: seq<int>, u: UserRecord, username: string, today: string, now: int)
    requires IsCurve(t) && |t| > 20 && t[18] == 1727 && t[19] == 1932 && t[20] == 2151
    requires u.xp == 1931.0 && u.level == 19 && u.lastDailyBonus == Some(today)
    requires now >= FiveMinutesMs
    ensures
      var o := ChatAccrual(t, u, NoChatYet, username, 15, false, today, now);
      && Consistent(t, o.user)
      && o.result.totalXp == 1932.5 && o.result.level == 20
      && o.result.leveledUp && o.result.oldLevel == 19
  {
    ChatRestedFullRate(now);
    ChatGainUnfloored(15, now, 0, false);
    assert ChatGain(15, now, 0, false) == 1.5;
    var o := ChatAccrual(t, u, NoChatYet, username, 15, false, today, now);
    assert o.user.xp == 1932.5;
    LevelForUnique(t, u.xp, 19);
    LevelForUnique(t, o.user.xp, 20);
  }



  /**
   * The first voice minute of a user (stored timestamp 0) an hour or more
   * after the epoch: the idle recovery drives the counter to zero and this
   * minute is not counted, so the stored counter is 0 while the gain is the
   * full 1 XP (times the tag bonus).
   */
  lemma FirstVoiceMinute(t: seq<int>, username: string, tagged: bool, now: int)
    requires now >= OneHourMs
    ensures
      var o := VoiceAccrual(t, NewUser(username), NoVoiceYet, username, tagged, now);
      o.activity.voiceMinuteCount == 0 && o.result.xpGain == TagMultiplier(tagged)
  {
    VoiceGainUnfloored(0, tagged);
  }

  /** One chat event of a replayed history. */
  datatype ChatEvent = ChatEvent(username: string, wordCount: nat, tagged: bool, today: string, now: int)

  /** The records after a history of chat messages, applied in order. */
  function ReplayChat(t: seq<int>, u: UserRecord, a: ChatActivity, events: seq<ChatEvent>): ChatOutcome
    decreases |events|
  {
    if events == [] then ChatOutcome(u, a, AccrualResult(0.0, u.xp, u.level, false, u.level))
    else
      var e := events[0];
      var o := ChatAccrual(t, u, a, e.username, e.wordCount, e.tagged, e.today, e.now);
      ReplayChat(t, o.user, o.activity, events[1..])
  }

  /**
   * Along any history of chat messages a consistent record stays consistent,
   * its XP never decreases (it grows by at least 0.0001 per message), its
   * level never decreases and its message count rises by one per message.
   */
  lemma {:induction false} ReplayChatMonotone(t: seq<int>, u: UserRecord, a: ChatActivity, events: seq<ChatEvent>)
    requires Consistent(t, u)
    ensures var r := ReplayChat(t, u, a, events).user;
      && Consistent(t, r)
      && r.xp >= u.xp + MinGain * |events| as real
      && r.level >= u.level
      && r.messageCount == u.messageCount + |events|
    decreases |events|
  {
    if events != [] {
      var e := events[0];
      var o := ChatAccrual(t, u, a, e.username, e.wordCount, e.tagged, e.today, e.now);
      ChatAccrualKeepsConsistent(t, u, a, e.username, e.wordCount, e.tagged, e.today, e.now);
      ReplayChatMonotone(t, o.user, o.activity, events[1..]);
    }
  }

  /**
   * One chat message keeps every record of a consistent `users` map
   * consistent, whether or not its author had a record yet.
   */
  lemma ChatKeepsAllConsistent(t: seq<int>, users: map<UserId, UserRecord>, id: UserId, a: ChatActivity,
                               username: string, wordCount: nat, tagged: bool, today: string, now: int)
    requires IsCurve(t) && AllConsistent(t, users)
    ensures var u := if id in users then users[id] else NewUser(username);
      AllConsistent(t, users[id := ChatAccrual(t, u, a, username, wordCount, tagged, today, now).user])
  {
    var u := if id in users then users[id] else NewUser(username);
    if id !in users {
      NewUserConsistent(t, username);
    }
    ChatAccrualKeepsConsistent(t, u, a, username, wordCount, tagged, today, now);
    StoreConsistent(t, users, id, ChatAccrual(t, u, a, username, wordCount, tagged, today, now).user);
  }

  /** One voice minute keeps every record of a consistent `users` map consistent. */
  lemma VoiceKeepsAllConsistent(t: seq<int>, users: map<UserId, UserRecord>, id: UserId, a: VoiceActivity,
                                username: string, tagged: bool, now: int)
    requires IsCurve(t) && AllConsistent(t, users)
    ensures var u := if id in users then users[id] else NewUser(username);
      AllConsistent(t, users[id := VoiceAccrual(t, u, a, username, tagged, now).user])
  {
    var u := if id in users then users[id] else NewUser(username);
    if id !in users {
      NewUserConsistent(t, username);
    }
    VoiceAccrualKeepsConsistent(t, u, a, username, tagged, now);
    StoreConsistent(t, users, id, VoiceAccrual(t, u, a, username, tagged, now).user);
  }

  /** One guild's levels record, updated in place by the accrual transactions. */
  class GuildLedger {
    /** The level table the transactions look levels up in: ARK_XP_TABLE. */
    const xpTable: seq<int>
    var users: map<UserId, UserRecord>
    var lastMessages: map<UserId, ChatActivity>
    var lastVoiceActivity: map<UserId, VoiceActivity>

    /** Every user's cached level agrees with their XP. */
    ghost predicate Valid()
      reads this
    {
      && IsCurve(xpTable)
      && AllConsistent(xpTable, users)
    }

    /** The record getServerLevels creates for a guild it has not seen. */
    constructor ()
      ensures xpTable == ArkXpTable
      ensures users == map[] && lastMessages == map[] && lastVoiceActivity == map[]
      ensures Valid()
    {
      xpTable := ArkXpTable;
      ArkIsCurve();
      users := map[];
      lastMessages := map[];
      lastVoiceActivity := map[];
    }

    /** A user's record, or the one addXP and addVoiceXP would create. */
    function UserOrNew(userId: UserId, username: string): UserRecord
      reads this
    {
      if userId in users then users[userId] else NewUser(username)
    }

    function ChatOf(userId: UserId): ChatActivity
      reads this
    {
      if userId in lastMessages then lastMessages[userId] else NoChatYet
    }

    function VoiceOf(userId: UserId): VoiceActivity
      reads this
    {
      if userId in lastVoiceActivity then lastVoiceActivity[userId] else NoVoiceYet
    }

    /**
     * addXP: one chat message of `wordCount` words from userId. Exactly that
     * user's `users` and `lastMessages` entries change, as ChatAccrual says.
     */
    method AddXp(userId: UserId, username: string, wordCount: nat, tagged: bool, today: string, now: int)
      returns (result: AccrualResult)
      modifies this
      ensures var o := ChatAccrual(xpTable, old(UserOrNew(userId, username)), old(ChatOf(userId)),
                                   username, wordCount, tagged, today, now);
        && users == old(users)[userId := o.user]
        && lastMessages == old(lastMessages)[userId := o.activity]
        && result == o.result
      ensures lastVoiceActivity == old(lastVoiceActivity)
      ensures old(Valid()) ==> Valid()
    {
      ghost var wasValid := Valid();
      if wasValid {
        ChatKeepsAllConsistent(xpTable, users, userId, ChatOf(userId), username, wordCount, tagged, today, now);
      }
      // A user without entries reads as a fresh record and a zero activity;
      // both entries are (re)written below.
      var userData, lastMessage;
      userData, lastMessage, result := AccrueChat(xpTable, UserOrNew(userId, username), ChatOf(userId),
                                                  username, wordCount, tagged, today, now);
      users := users[userId := userData];
      lastMessages := lastMessages[userId := lastMessage];
    }

    /**
     * addVoiceXP: one voice minute of userId. Exactly that user's `users`
     * and `lastVoiceActivity` entries change, as VoiceAccrual says.
     */
    method AddVoiceXp(userId: UserId, username: string, tagged: bool, now: int)
      returns (result: AccrualResult)
      modifies this
      ensures var o := VoiceAccrual(xpTable, old(UserOrNew(userId, username)), old(VoiceOf(userId)),
                                    username, tagged, now);
        && users == old(users)[userId := o.user]
        && lastVoiceActivity == old(lastVoiceActivity)[userId := o.activity]
        && result == o.result
      ensures lastMessages == old(lastMessages)
      ensures old(Valid()) ==> Valid()
    {
      ghost var wasValid := Valid();
      if wasValid {
        VoiceKeepsAllConsistent(xpTable, users, userId, VoiceOf(userId), username, tagged, now);
      }
      var userData, lastVoice;
      userData, lastVoice, result := AccrueVoice(xpTable, UserOrNew(userId, username), VoiceOf(userId),
                                                 username, tagged, now);
      users := users[userId := userData];
      lastVoiceActivity := lastVoiceActivity[userId := lastVoice];
    }

    /**
     * The XP part of messageCreate, for a message that passed its first
     * filter (not from a bot, sent in a guild): a message without words earns
     * nothing and changes nothing; any other message is one addXP with its
     * word count.
     */
    method OnMessage(userId: UserId, username: string, content: string, tagged: bool, today: string, now: int)
      returns (result: Option<AccrualResult>)
      modifies this
      ensures WordCount(content) == 0 ==>
        result == None && users == old(users) && lastMessages == old(lastMessages)
      ensures WordCount(content) > 0 ==>
        var o := ChatAccrual(xpTable, old(UserOrNew(userId, username)), old(ChatOf(userId)),
                             username, WordCount(content), tagged, today, now);
        && users == old(users)[userId := o.user]
        && lastMessages == old(lastMessages)[userId := o.activity]
        && result == Some(o.result)
      ensures lastVoiceActivity == old(lastVoiceActivity)
      ensures old(Valid()) ==> Valid()
    {
      var wordCount := WordCount(content);
      if wordCount == 0 {
        return None;
      }
      var r := AddXp(userId, username, wordCount, tagged, today, now);
      result := Some(r);
    }
  }
}
