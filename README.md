# Dead man's switch: a Dafny model

The system watches for a periodic check-in from its owner over a Telegram bot.
If the owner stays silent longer than a limit counted in days, it alerts a list
of recipients. It comes in two variants, and this project models the decision
logic of both:

- **check_alive.py** is a batch step run by a scheduler. It loads `state.json`
  (`last_checkin`, the update cursor `last_update_id`, and `alert_sent`). It
  walks the updates fetched from Telegram and advances the cursor as it goes.
  At the first owner message reading "checkin" it resets the timer and stops.
  Otherwise it saves the cursor and fires an edge-triggered alert: once, when
  more than `DAYS_LIMIT` days have elapsed and no alert is pending.
- **bot.py** is an older, stateless variant. The `/checkin` handler overwrites
  `last_checkin.json` with the current time, and only for the owner. A check
  alerts the group whenever the elapsed whole days reach the limit. It keeps
  no record that an alert went out.

Modules, one per concern:

- `Wrappers`: the Option type.
- `Time`: instants and durations are integers counting microseconds, the
  resolution of Python's `datetime`.
  - `Days(n)` is `timedelta(days=n)`.
  - `WholeDays` is the floored `timedelta.days`.
- `PyText`: Python's `str.strip()` and `str.lower()`, as used by the check-in
  test.
- `CheckAlive`: check_alive.py.
  - `Step` is the spec function of one run. It maps what `state.json` holds,
    the fetched updates, the clock and the configuration to three things: the
    final state, the ordered outbox of `send_message` calls, and the ordered
    `save_state` snapshots.
  - `RunOnce` is `main()` written as the script runs it. It has the update
    loop with its early `return` and the loop over the recipients, and it is
    proved equal to `Step`.
- `Bot`: bot.py.
  - `CheckinBot` is a class whose fields are the record file and the replies
    sent. Its methods are `save_checkin_time` and `cmd_checkin`.
  - `NotifyIfNeeded` is a pure function of the file, the clock and the outcome
    of the send. The send outcome is a boolean: false stands for an exception.
- `Variants`: compares the two variants' boundary at the day limit.

Inputs that come from the environment or the outside world are parameters:
- `utcnow()` is `now`;
- `OWNER_ID`, `RECIPIENT_IDS` and `DAYS_LIMIT` form `Config`;
- `YOUR_USER_ID`, `GROUP_CHAT_ID` and `DAYS_LIMIT` are passed directly;
- the getUpdates result is a sequence of `Update` values.

Behaviour of the code that the model keeps:
- A check-in run saves the state without touching `last_update_id`, then
  returns. `CheckinReplays` states the consequence: the next run asks for the
  same updates and, if the same batch comes back, counts the check-in again at
  its own time.
- The two variants differ at the boundary. check_alive.py compares the elapsed
  time with `>`, bot.py compares whole days with `>=`. While no alert is
  pending, they disagree only when exactly the limit has elapsed
  (`BoundaryDiffers`). Once check_alive.py has set `alert_sent`, it stays silent until the next check-in,
  while bot.py alerts on every check past the limit.
- `cmd_checkin` checks only the user id, not the type of chat, so the owner can
  check in from any chat, the group included. The model has no chat parameter
  for it either.

## Model

| member | source | states |
|---|---|---|
| `CheckAlive.LoadState` | check_alive.py:15-19 | With no file, the record is all empty: no check-in, no cursor, no alert sent. Otherwise it is the stored record. |
| `CheckAlive.CursorClosedForm` | check_alive.py:54-58 | After the loop over a batch, the cursor is max(old cursor, largest id + 1), or largest id + 1 when there was no cursor. An empty batch leaves it as it was. |
| `CheckAlive.CursorPassesBatch` | check_alive.py:54-58 | The cursor never decreases. After a non-empty batch it exists and lies above every fetched id, whatever the order of the batch. |
| `CheckAlive.MaxId` | check_alive.py:55-58 | The largest id of a non-empty batch bounds every id and is one of them. |
| `PyText.TrimLeftSpec` | check_alive.py:63 | `lstrip` keeps a suffix and drops only whitespace (Python's `isspace` set). No whitespace is left at the front. |
| `PyText.TrimRightSpec` | check_alive.py:63 | `rstrip` keeps a prefix and drops only whitespace. No whitespace is left at the back. |
| `PyText.StripSpec` | check_alive.py:63 | `strip` yields a slice whose surroundings are all whitespace and whose two ends are not whitespace. |
| `PyText.StripPadded` | check_alive.py:63 | Stripping whitespace padding off a word with non-space ends gives back exactly that word. |
| `CheckAlive.CheckinTextIff` | check_alive.py:63-66 | `text.strip().lower() == "checkin"` holds exactly when the text is the word in any mix of case, with only whitespace around it. |
| `CheckAlive.CheckinIff` | check_alive.py:60-66 | An update is a check-in exactly when both hold: its `message`, or its `edited_message` when there is no `message`, comes from the owner's chat; and its text is the padded word. An update with neither, or with no text, is never a check-in. |
| `CheckAlive.RunOnce` | check_alive.py:46-95 | The script's run reaches the same final state, outbox and sequence of saves as `Step`, in the same order. This holds for every stored record, batch, clock and configuration. |
| `CheckAlive.PersistedIsFinal` | check_alive.py:66-95 | Every change a run makes to the state is saved. Reloading `state.json` after the run gives its final state. |
| `CheckAlive.CheckinRun` | check_alive.py:66-72 | A check-in sets `last_checkin` to now and `alert_sent` to false and leaves the cursor unchanged. It saves exactly once and sends one confirmation to the owner. No alert is evaluated. |
| `CheckAlive.CheckinStopsRun` | check_alive.py:55-72 | Updates after the first check-in change nothing about the run. |
| `CheckAlive.RunWithoutCheckin` | check_alive.py:55-95 | Without a check-in, `last_checkin` is kept and the final cursor lies past every fetched id. The saves are first the cursor record with `alert_sent` as loaded (when there is a cursor), then the alert record (when the alert fires). The run sends one alert per recipient, in order, and sets `alert_sent`, exactly when the loaded record meets the alert condition. Otherwise it sends nothing and keeps `alert_sent`. |
| `CheckAlive.NonOwnerImmunity` | check_alive.py:55-66 | If no update comes from the owner's chat, `last_checkin` is untouched, whatever the texts say. `alert_sent` and the outbox change only through the alert condition. |
| `CheckAlive.AlertBoundary` | check_alive.py:86-88 | The alert does not fire when exactly `DAYS_LIMIT` days have elapsed. It fires one microsecond later if no alert is pending. Without a baseline it never fires. |
| `CheckAlive.AlertFiresOnce` | check_alive.py:88-95 | The alert is edge-triggered. After a run that ends with `alert_sent` set, a following run without a check-in sends nothing, and the flag stays set. |
| `CheckAlive.NoReprocessing` | check_alive.py:53-78 | After a run without a check-in, every fetched id lies below the `last_update_id` that the next run sends as its offset. |
| `CheckAlive.CheckinReplays` | check_alive.py:53-72 | A check-in run leaves the stored cursor as it was. Given the same batch again, the next run counts the check-in again at its own time. |
| `CheckAlive.Timeline` | check_alive.py:46-95 | A three-day limit with two recipients: silent at 2 days, alerts both recipients at 4, silent at 5. A check-in at 5 resets the record, and the alert fires again at 9. |
| `Time.WholeDaysAtLeast` | bot.py:66-68 | Floored whole days reach `n` exactly when the duration is at least `n` days. |
| `Bot.LoadCheckinTime` | bot.py:38-46 | A stored instant is returned only when the file parses and holds `last_checkin`. A missing, unreadable or incomplete file gives none. |
| `Bot.CheckinRecord` | bot.py:32-35 | The record written by `save_checkin_time` reads back as exactly the instant it was written with. |
| `Bot.CheckinBot.SaveCheckinTime` | bot.py:32-36 | The whole file is replaced by a record of `now`, which loads back as `now`. |
| `Bot.CheckinBot.CmdCheckin` | bot.py:48-55 | Anyone but the owner gets the refusal reply and the file is untouched. The owner's command rewrites the record with `now` and gets the confirmation reply. |
| `Bot.NotifyIfNeeded` | bot.py:57-79 | No baseline: `{False, no_initial_checkin}` and no send. Otherwise at most one send, to the group, attempted exactly when at least `DAYS_LIMIT` days have elapsed. `alert_sent` is true exactly for msg `alert_sent`, which means the send was attempted and succeeded. `send_failed` means it was attempted and raised. `within_window` means a baseline and no attempt. |
| `Bot.AlertRepeats` | bot.py:57-79 | A check writes nothing. Once one check attempts an alert, every later check attempts one too: there is no deduplication. |
| `Bot.ThresholdExamples` | bot.py:66-79 | With a three-day limit, 2 days 23 hours gives `within_window` and exactly 3 days attempts the alert. |
| `Variants.BoundaryDiffers` | check_alive.py:86-88 | From the same baseline with no alert pending, the two variants agree on alerting at every instant except exactly at the limit. There bot.py alerts and check_alive.py does not. |

## Left out

- Telegram transport is a parameter. `requests.get`/`post`, `Bot.send_message`, `reply_text` and the URL and parameters of `fetch_updates` are not modelled. A fetch is the sequence of updates it returns. A send is an outbox entry (check_alive.py) or a success flag (bot.py).
- The `if offset:` test in `fetch_updates` is not modelled: an offset of 0 is not sent. It only shapes the request, and the model takes any batch in any order.
- check_alive.py ignores the result of `send_message`, and the model does too. An exception raised by `requests` would end the run; that is not modelled.
- JSON and ISO-8601 are not modelled: `json.load`/`json.dump`, `isoformat` and `fromisoformat`. A record is a datatype, an instant an integer. A stored `last_checkin` of `""` reads like a missing one (`iso_to_dt`), and the model holds both as `None`.
- A missing key in `state.json` is read with `get` as `None` or `False`, and the model stores that default. The saved snapshot therefore is not distinguished from one that lacks the key.
- A corrupt `state.json` raises in `load_state`; this is not modelled. bot.py, by contrast, falls back to "no check-in".
- An update without an `update_id` would raise in the loop; the model gives every update an integer id.
- A `message` that is an empty JSON object is falsy in Python, so `edited_message` is used in its place. The model treats a present message as used.
- `PyText.LowerChar`: does not model all of Python's `str.lower()`. It maps A–Z and the Kelvin sign U+212A (lowered to `k`) and keeps every other character. In Python, U+0130 lowers to `i` followed by U+0307; the model keeps U+0130 as it is, and `PyText.Lower` keeps the length where Python's `lower()` does not. Neither result can equal `"checkin"`. Any other character lowers either to itself or to a non-ASCII character, so the comparison with `"checkin"` comes out the same.
- `utcnow()` and the environment reads are parameters: `BOT_TOKEN`, `OWNER_ID`, `RECIPIENT_IDS`, `DAYS_LIMIT`, `YOUR_USER_ID`, `GROUP_CHAT_ID`.
- The polling server of bot.py is not modelled: `ApplicationBuilder`, `run_polling`, asyncio. Only the body of the `/checkin` handler is.
- The rest of bot.py is left out: the command line (`argparse`, `main`, the `sys.exit` checks), logging, and printing the result.
- The wording, in Persian, of the confirmation, alert and refusal texts is not modelled. They are `Notice` and `Reply` values; the alert carries the day limit it names.
