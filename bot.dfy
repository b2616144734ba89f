/**
 * bot.py: the earlier, stateless variant. The owner's /checkin command
 * overwrites last_checkin.json with the current time; a check run reads it back
 * and alerts the group once at least the day limit has passed in whole days.
 * Nothing records that an alert went out, so every check past the limit
 * alerts again.
 */
module Bot {
  import opened Wrappers
  import opened Time

  /** What reading last_checkin.json can come to. */
  datatype CheckinFile =
    | Missing
      // not JSON, or JSON that is not an object
    | Unreadable
      // an object; None when it has no "last_checkin" key or its value is not an ISO-8601 timestamp
    | Parsed(lastCheckin: Option<int>)

  /** The two replies of the /checkin handler. */
  datatype Reply = NotAuthorized | TimerReset

  /** The `msg` field of the result of `notify_if_needed`. */
  datatype ResultMsg = NoInitialCheckin | WithinWindow | AlertSent | SendFailed

  /** The result dictionary `{"alert_sent": ..., "msg": ...}`. */
  datatype Verdict = Verdict(alertSent: bool, msg: ResultMsg)

  /** A check's result together with the chats it tried to send to. */
  datatype Notification = Notification(result: Verdict, attempts: seq<int>)

  /** `load_checkin_time()`: the stored instant; a missing, unreadable or incomplete file gives none. */
  function LoadCheckinTime(f: CheckinFile): (t: Option<int>)
    ensures t.Some? <==> f.Parsed? && f.lastCheckin.Some?
    ensures t.Some? ==> t == f.lastCheckin
  {
    if f.Parsed? then f.lastCheckin else None
  }

  /** What `save_checkin_time()` writes: the whole file, holding `last_checkin` alone. */
  function CheckinRecord(now: int): (f: CheckinFile)
    ensures LoadCheckinTime(f) == Some(now)
  {
    Parsed(Some(now))
  }

  /**
   * `notify_if_needed()`, with the outcome of `send_message` given as
   * `sendSucceeds` (false when it raises).
   */
  function NotifyIfNeeded(f: CheckinFile, now: int, groupChatId: int, daysLimit: int, sendSucceeds: bool): (n: Notification)
    ensures LoadCheckinTime(f).None? ==> n == Notification(Verdict(false, NoInitialCheckin), [])
    ensures LoadCheckinTime(f).Some? ==>
      (n.attempts != [] <==> now - LoadCheckinTime(f).value >= Days(daysLimit))
    ensures n.attempts == [] || n.attempts == [groupChatId]
    ensures n.result.alertSent <==> n.result.msg == AlertSent
    ensures n.result.msg == AlertSent <==> n.attempts != [] && sendSucceeds
    ensures n.result.msg == SendFailed <==> n.attempts != [] && !sendSucceeds
    ensures n.result.msg == WithinWindow <==> LoadCheckinTime(f).Some? && n.attempts == []
  {
    var last := LoadCheckinTime(f);
    if last.None? then
      Notification(Verdict(false, NoInitialCheckin), [])
    else
      var diff := WholeDays(now - last.value);
      WholeDaysAtLeast(now - last.value, daysLimit);
      if diff >= daysLimit then
        if sendSucceeds then Notification(Verdict(true, AlertSent), [groupChatId])
        else Notification(Verdict(false, SendFailed), [groupChatId])
      else
        Notification(Verdict(false, WithinWindow), [])
  }

  /**
   * There is no deduplication: a check reads the file and writes nothing, so
   * once one check attempts an alert, every later check does too.
   */
  lemma AlertRepeats(f: CheckinFile, t1: int, t2: int, groupChatId: int, daysLimit: int, ok1: bool, ok2: bool)
    requires t1 <= t2
    requires NotifyIfNeeded(f, t1, groupChatId, daysLimit, ok1).attempts != []
    ensures NotifyIfNeeded(f, t2, groupChatId, daysLimit, ok2).attempts == [groupChatId]
  {
  }

  /** With a three-day limit, 2 days 23 hours is within the window and exactly 3 days alerts. */
  lemma ThresholdExamples(last: int, groupChatId: int, ok: bool)
    ensures NotifyIfNeeded(Parsed(Some(last)), last + Days(2) + 23 * 3_600_000_000, groupChatId, 3, ok).result ==
      Verdict(false, WithinWindow)
    ensures NotifyIfNeeded(Parsed(Some(last)), last + Days(3), groupChatId, 3, ok).attempts == [groupChatId]
  {
  }

  /** The long-polling bot: the record file and the replies it has sent. */
  class CheckinBot {
    /** YOUR_USER_ID */
    const ownerId: int
    /** last_checkin.json */
    var file: CheckinFile
    /** The `reply_text` calls, in order. */
    var replies: seq<Reply>

    constructor (ownerId: int, file: CheckinFile)
      ensures this.ownerId == ownerId && this.file == file && replies == []
    {
      this.ownerId := ownerId;
      this.file := file;
      replies := [];
    }

    /** `save_checkin_time()`: replace the file by a record of `now`. */
    method SaveCheckinTime(now: int)
      modifies this`file
      ensures file == CheckinRecord(now)
      ensures LoadCheckinTime(file) == Some(now)
    {
      file := CheckinRecord(now);
    }

    /** `cmd_checkin`: only the owner may reset the timer; anyone else is turned away and the file is untouched. */
    method CmdCheckin(userId: int, now: int)
      modifies this
      ensures userId != ownerId ==> file == old(file) && replies == old(replies) + [NotAuthorized]
      ensures userId == ownerId ==>
        file == CheckinRecord(now) && LoadCheckinTime(file) == Some(now) && replies == old(replies) + [TimerReset]
    {
      if userId != ownerId {
        replies := replies + [NotAuthorized];
        return;
      }
      SaveCheckinTime(now);
      replies := replies + [TimerReset];
    }
  }
}
