/**
 * The two scripts draw the line at the day limit differently: check_alive.py
 * compares the elapsed time with `>`, bot.py compares whole days with `>=`.
 */
module Variants {
  import opened Wrappers
  import opened Time
  import CheckAlive
  import Bot

  /**
   * From the same baseline and with no alert pending, the two variants agree
   * on whether to alert at every instant except when exactly the limit has
   * elapsed, where bot.py alerts and check_alive.py does not.
   */
  lemma BoundaryDiffers(last: int, now: int, daysLimit: int, cursor: Option<int>, groupChatId: int, ok: bool)
    ensures CheckAlive.ShouldAlert(CheckAlive.State(Some(last), cursor, false), now, daysLimit) <==>
      Bot.NotifyIfNeeded(Bot.Parsed(Some(last)), now, groupChatId, daysLimit, ok).attempts != [] &&
      now - last != Days(daysLimit)
  {
  }
}
