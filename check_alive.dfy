/**
 * check_alive.py: one batch run of the dead man's switch. A run loads the
 * persisted record, walks the updates fetched from Telegram while advancing the
 * update cursor, stops at the first check-in from the owner, and otherwise saves
 * the cursor and fires the alert once the owner has been silent for more than
 * the day limit.
 *
 * The run's effects are its outputs: the messages it sends, in order (the
 * outbox), and the records it writes to state.json, in order (the saves).
 */
module CheckAlive {
  import opened Wrappers
  import opened Time
  import opened PyText

  /** The part of a Telegram message the run reads: `message.chat.id` and `message.text`. */
  datatype Message = Message(chatId: Option<int>, text: Option<string>)

  /** One entry of the `result` list returned by getUpdates. */
  datatype Update = Update(updateId: int, message: Option<Message>, editedMessage: Option<Message>)

  /**
   * The state.json record. A key missing from the file is read with `get` as
   * `None` (or `False` for `alert_sent`), which is what this record holds then.
   */
  datatype State = State(lastCheckin: Option<int>, lastUpdateId: Option<int>, alertSent: bool)

  /** OWNER_ID, RECIPIENT_IDS and DAYS_LIMIT. */
  datatype Config = Config(ownerId: int, recipients: seq<int>, daysLimit: int)

  /** The two texts the run sends: the check-in confirmation and the alert naming the day limit. */
  datatype Notice = CheckinConfirmed | Alert(days: int)

  /** One `send_message(chat_id, text)` call. */
  datatype Outgoing = Outgoing(chatId: int, notice: Notice)

  /** What a run leaves behind: its state at the end, the messages sent, the records saved. */
  datatype RunResult = RunResult(state: State, outbox: seq<Outgoing>, saves: seq<State>)

  const CheckinWord: string := "checkin"

  /** `load_state()`: the stored record, or the all-empty record when there is no file. */
  function LoadState(file: Option<State>): (s: State)
    ensures file == None ==> s == State(None, None, false)
    ensures file != None ==> s == file.value
  {
    if file.None? then State(None, None, false) else file.value
  }

  /** What state.json holds after a run: the last record saved, or what it held before. */
  function Persisted(file: Option<State>, r: RunResult): Option<State>
  {
    if r.saves == [] then file else Some(r.saves[|r.saves| - 1])
  }

  /** `upd.get("message") or upd.get("edited_message") or {}`. */
  function EffectiveMessage(u: Update): Message
  {
    if u.message.Some? then u.message.value
    else if u.editedMessage.Some? then u.editedMessage.value
    else Message(None, None)
  }

  /** `msg.get("text") or ""`. */
  function TextOf(m: Message): string
  {
    if m.text.Some? then m.text.value else ""
  }

  /** The owner sent "checkin", up to surrounding whitespace and letter case. */
  predicate IsCheckin(u: Update, ownerId: int)
  {
    var m := EffectiveMessage(u);
    m.chatId == Some(ownerId) && Lower(Strip(TextOf(m))) == CheckinWord
  }

  predicate HasCheckin(us: seq<Update>, ownerId: int)
  {
    exists k :: 0 <= k < |us| && IsCheckin(us[k], ownerId)
  }

  /** A text whose letters spell "checkin" in any mix of cases. */
  predicate SpellsCheckin(w: string)
  {
    |w| == |CheckinWord| && forall k :: 0 <= k < |w| ==> LowerChar(w[k]) == CheckinWord[k]
  }

  /** The word in any case, with nothing but whitespace on either side. */
  predicate PaddedCheckin(t: string)
  {
    exists i, j :: 0 <= i <= j <= |t| && AllSpace(t[..i]) && AllSpace(t[j..]) && SpellsCheckin(t[i..j])
  }

  /** What `text.strip().lower() == "checkin"` accepts. */
  lemma CheckinTextIff(t: string)
    ensures Lower(Strip(t)) == CheckinWord <==> PaddedCheckin(t)
  {
    if Lower(Strip(t)) == CheckinWord {
      StrippedCheckinIsPadded(t);
    }
    if PaddedCheckin(t) {
      var i, j :| 0 <= i <= j <= |t| && AllSpace(t[..i]) && AllSpace(t[j..]) && SpellsCheckin(t[i..j]);
      PaddedCheckinStrips(t, i, j);
    }
  }

  lemma StrippedCheckinIsPadded(t: string)
    requires Lower(Strip(t)) == CheckinWord
    ensures PaddedCheckin(t)
  {
    var w := Strip(t);
    var i := StripSpec(t);
    assert SpellsCheckin(t[i..i + |w|]);
  }

  lemma PaddedCheckinStrips(t: string, i: int, j: int)
    requires 0 <= i <= j <= |t| && AllSpace(t[..i]) && AllSpace(t[j..]) && SpellsCheckin(t[i..j])
    ensures Lower(Strip(t)) == CheckinWord
  {
    var v := t[i..j];
    assert LowerChar(v[0]) == 'c' && LowerChar(v[|v| - 1]) == 'n';
    assert t == t[..i] + v + t[j..];
    StripPadded(t[..i], v, t[j..]);
    assert Lower(v) == CheckinWord;
  }

  /**
   * An update is a check-in exactly when its message (or, if it has none, its
   * edited message) comes from the owner's chat and its text is the padded word;
   * a message without text never is.
   */
  lemma CheckinIff(u: Update, ownerId: int)
    ensures u.message.Some? ==>
      (IsCheckin(u, ownerId) <==> u.message.value.chatId == Some(ownerId) && PaddedCheckin(TextOf(u.message.value)))
    ensures u.message.None? && u.editedMessage.Some? ==>
      (IsCheckin(u, ownerId) <==>
         u.editedMessage.value.chatId == Some(ownerId) && PaddedCheckin(TextOf(u.editedMessage.value)))
    ensures u.message.None? && u.editedMessage.None? ==> !IsCheckin(u, ownerId)
    ensures EffectiveMessage(u).text.None? ==> !IsCheckin(u, ownerId)
  {
    CheckinTextIff(TextOf(EffectiveMessage(u)));
    if EffectiveMessage(u).text.None? {
      assert !SpellsCheckin(""[0..0]);
    }
  }

  /** The check on lines 57-58: an id at or past the cursor moves it to that id plus one. */
  function Advance(cur: Option<int>, id: int): Option<int>
  {
    if cur.None? || id >= cur.value then Some(id + 1) else cur
  }

  /** The cursor after the update loop has seen every update of `us`, in order. */
  function Cursor(cur: Option<int>, us: seq<Update>): Option<int>
    decreases |us|
  {
    if us == [] then cur else Advance(Cursor(cur, us[..|us| - 1]), us[|us| - 1].updateId)
  }

  function Max(a: int, b: int): int
  {
    if a < b then b else a
  }

  /** The largest update id in a non-empty batch. */
  function MaxId(us: seq<Update>): (m: int)
    requires us != []
    ensures forall k :: 0 <= k < |us| ==> us[k].updateId <= m
    ensures exists k :: 0 <= k < |us| && us[k].updateId == m
    decreases |us|
  {
    if |us| == 1 then us[0].updateId
    else
      var front := us[..|us| - 1];
      assert forall k :: 0 <= k < |front| ==> front[k] == us[k];
      Max(MaxId(front), us[|us| - 1].updateId)
  }

  /**
   * The cursor is max(old cursor, largest id + 1), or largest id + 1 when there
   * was none; an empty batch leaves it as it was.
   */
  lemma {:induction false} CursorClosedForm(cur: Option<int>, us: seq<Update>)
    ensures us == [] ==> Cursor(cur, us) == cur
    ensures us != [] ==>
      Cursor(cur, us) == Some(if cur.None? then MaxId(us) + 1 else Max(cur.value, MaxId(us) + 1))
    decreases |us|
  {
    if |us| > 1 {
      CursorClosedForm(cur, us[..|us| - 1]);
    }
  }

  /** After a non-empty batch every fetched id lies below the cursor, and the cursor has not gone back. */
  lemma {:induction false} CursorPassesBatch(cur: Option<int>, us: seq<Update>)
    ensures cur.Some? ==> Cursor(cur, us).Some? && Cursor(cur, us).value >= cur.value
    ensures us != [] ==>
      Cursor(cur, us).Some? && forall k :: 0 <= k < |us| ==> us[k].updateId < Cursor(cur, us).value
  {
    CursorClosedForm(cur, us);
  }

  /** The alert condition of lines 86-88: a baseline exists, more than the limit has elapsed, no alert is pending. */
  predicate ShouldAlert(s: State, now: int, daysLimit: int)
  {
    s.lastCheckin.Some? && now - s.lastCheckin.value > Days(daysLimit) && !s.alertSent
  }

  /** One alert to each recipient, in the order of the list. */
  function AlertsTo(recipients: seq<int>, days: int): seq<Outgoing>
  {
    seq(|recipients|, k requires 0 <= k < |recipients| => Outgoing(recipients[k], Alert(days)))
  }

  /** A whole run of `main()`, given what state.json holds, what getUpdates returns and the clock. */
  function Step(file: Option<State>, updates: seq<Update>, now: int, cfg: Config): RunResult
  {
    var s0 := LoadState(file);
    if HasCheckin(updates, cfg.ownerId) then
      var s1 := s0.(lastCheckin := Some(now), alertSent := false);
      RunResult(s1, [Outgoing(cfg.ownerId, CheckinConfirmed)], [s1])
    else
      var cur := Cursor(s0.lastUpdateId, updates);
      var s1 := if cur.Some? then s0.(lastUpdateId := cur) else s0;
      var saved := if cur.Some? then [s1] else [];
      if ShouldAlert(s1, now, cfg.daysLimit) then
        var s2 := s1.(alertSent := true);
        RunResult(s2, AlertsTo(cfg.recipients, cfg.daysLimit), saved + [s2])
      else
        RunResult(s1, [], saved)
  }

  /** `main()`: the run as the script performs it, one update and one recipient at a time. */
  method RunOnce(file: Option<State>, updates: seq<Update>, now: int, cfg: Config)
    returns (state: State, outbox: seq<Outgoing>, saves: seq<State>)
    ensures RunResult(state, outbox, saves) == Step(file, updates, now, cfg)
  {
    state := LoadState(file);
    outbox, saves := [], [];
    var maxUpdateId := state.lastUpdateId;
    var i := 0;
    while i < |updates|
      invariant 0 <= i <= |updates|
      invariant state == LoadState(file) && outbox == [] && saves == []
      invariant maxUpdateId == Cursor(state.lastUpdateId, updates[..i])
      invariant forall k :: 0 <= k < i ==> !IsCheckin(updates[k], cfg.ownerId)
    {
      var upd := updates[i];
      assert updates[..i + 1][..i] == updates[..i];
      maxUpdateId := Advance(maxUpdateId, upd.updateId);
      var msg := EffectiveMessage(upd);
      var text := Lower(Strip(TextOf(msg)));
      if msg.chatId == Some(cfg.ownerId) && text == CheckinWord {
        assert IsCheckin(updates[i], cfg.ownerId);
        state := state.(lastCheckin := Some(now), alertSent := false);
        saves := saves + [state];
        outbox := outbox + [Outgoing(cfg.ownerId, CheckinConfirmed)];
        return;
      }
      i := i + 1;
    }
    assert updates[..i] == updates;
    if maxUpdateId.Some? {
      state := state.(lastUpdateId := maxUpdateId);
      saves := saves + [state];
    }
    if state.lastCheckin.Some? {
      if now - state.lastCheckin.value > Days(cfg.daysLimit) && !state.alertSent {
        var j := 0;
        while j < |cfg.recipients|
          invariant 0 <= j <= |cfg.recipients|
          invariant outbox == AlertsTo(cfg.recipients[..j], cfg.daysLimit)
        {
          outbox := outbox + [Outgoing(cfg.recipients[j], Alert(cfg.daysLimit))];
          j := j + 1;
        }
        assert cfg.recipients[..j] == cfg.recipients;
        state := state.(alertSent := true);
        saves := saves + [state];
      }
    }
  }

  /** Every change a run makes is saved: reloading state.json afterwards gives the run's final state. */
  lemma PersistedIsFinal(file: Option<State>, updates: seq<Update>, now: int, cfg: Config)
    ensures LoadState(Persisted(file, Step(file, updates, now, cfg))) == Step(file, updates, now, cfg).state
  {
  }

  /**
   * A check-in resets the timer, clears the alert flag and ends the run: one
   * save, one confirmation to the owner, no alert, and the cursor as it was.
   */
  lemma CheckinRun(file: Option<State>, updates: seq<Update>, now: int, cfg: Config, k: nat)
    requires k < |updates| && IsCheckin(updates[k], cfg.ownerId)
    ensures var r := Step(file, updates, now, cfg);
      && r.state == LoadState(file).(lastCheckin := Some(now), alertSent := false)
      && r.state.lastUpdateId == LoadState(file).lastUpdateId
      && r.saves == [r.state]
      && r.outbox == [Outgoing(cfg.ownerId, CheckinConfirmed)]
  {
  }

  /** The updates after the first check-in are never looked at: they change nothing in the run. */
  lemma CheckinStopsRun(file: Option<State>, before: seq<Update>, u: Update, after1: seq<Update>,
                        after2: seq<Update>, now: int, cfg: Config)
    requires IsCheckin(u, cfg.ownerId)
    ensures Step(file, before + [u] + after1, now, cfg) == Step(file, before + [u] + after2, now, cfg)
  {
    assert (before + [u] + after1)[|before|] == u;
    assert (before + [u] + after2)[|before|] == u;
  }

  /**
   * Without a check-in the run keeps the baseline, saves the advanced cursor
   * (past every fetched id) with the alert flag as loaded, and fires exactly when the alert condition holds
   * for the loaded record: one alert per recipient in order, then the flag is set.
   */
  lemma {:induction false} RunWithoutCheckin(file: Option<State>, updates: seq<Update>, now: int, cfg: Config)
    requires !HasCheckin(updates, cfg.ownerId)
    ensures var s0, r := LoadState(file), Step(file, updates, now, cfg);
      && r.state.lastCheckin == s0.lastCheckin
      && r.state.lastUpdateId == Cursor(s0.lastUpdateId, updates)
      && (updates != [] ==>
            r.state.lastUpdateId.Some? &&
            forall k :: 0 <= k < |updates| ==> updates[k].updateId < r.state.lastUpdateId.value)
      && (ShouldAlert(s0, now, cfg.daysLimit) ==>
            r.outbox == AlertsTo(cfg.recipients, cfg.daysLimit) && r.state.alertSent)
      && (!ShouldAlert(s0, now, cfg.daysLimit) ==> r.outbox == [] && r.state.alertSent == s0.alertSent)
      && r.saves ==
           (if Cursor(s0.lastUpdateId, updates).Some? then [s0.(lastUpdateId := Cursor(s0.lastUpdateId, updates))] else [])
           + (if ShouldAlert(s0, now, cfg.daysLimit) then [r.state] else [])
  {
    CursorPassesBatch(LoadState(file).lastUpdateId, updates);
  }

  /** Updates from any chat but the owner's cannot be check-ins, whatever their text. */
  lemma NonOwnerImmunity(file: Option<State>, updates: seq<Update>, now: int, cfg: Config)
    requires forall k :: 0 <= k < |updates| ==> EffectiveMessage(updates[k]).chatId != Some(cfg.ownerId)
    ensures var s0, r := LoadState(file), Step(file, updates, now, cfg);
      && r.state.lastCheckin == s0.lastCheckin
      && r.state.alertSent == (s0.alertSent || ShouldAlert(s0, now, cfg.daysLimit))
      && r.outbox == (if ShouldAlert(s0, now, cfg.daysLimit) then AlertsTo(cfg.recipients, cfg.daysLimit) else [])
  {
  }

  /** The boundary is strict: exactly the limit does not fire, one microsecond more does. */
  lemma AlertBoundary(last: int, cursor: Option<int>, daysLimit: int)
    ensures !ShouldAlert(State(Some(last), cursor, false), last + Days(daysLimit), daysLimit)
    ensures ShouldAlert(State(Some(last), cursor, false), last + Days(daysLimit) + 1, daysLimit)
    ensures forall now :: !ShouldAlert(State(None, cursor, false), now, daysLimit)
  {
  }

  /**
   * The alert is edge-triggered: once a run has fired (or the flag was already
   * set), a following run without a check-in sends nothing and keeps the flag.
   */
  lemma AlertFiresOnce(file: Option<State>, us1: seq<Update>, t1: int, us2: seq<Update>, t2: int, cfg: Config)
    requires Step(file, us1, t1, cfg).state.alertSent
    requires !HasCheckin(us2, cfg.ownerId)
    ensures var r2 := Step(Persisted(file, Step(file, us1, t1, cfg)), us2, t2, cfg);
      r2.outbox == [] && r2.state.alertSent
  {
  }

  /**
   * No update is requested twice: after a run without a check-in every fetched
   * id is below the offset the next run will send.
   */
  lemma NoReprocessing(file: Option<State>, updates: seq<Update>, now: int, cfg: Config)
    requires !HasCheckin(updates, cfg.ownerId) && updates != []
    ensures var next := LoadState(Persisted(file, Step(file, updates, now, cfg))).lastUpdateId;
      next.Some? && forall k :: 0 <= k < |updates| ==> updates[k].updateId < next.value
  {
    PersistedIsFinal(file, updates, now, cfg);
    RunWithoutCheckin(file, updates, now, cfg);
  }

  /**
   * A check-in run does not advance the cursor, so the next run asks for the
   * same updates; if it gets the same batch back it counts the check-in again,
   * at its own time.
   */
  lemma CheckinReplays(file: Option<State>, updates: seq<Update>, t1: int, t2: int, cfg: Config)
    requires HasCheckin(updates, cfg.ownerId)
    ensures var f1 := Persisted(file, Step(file, updates, t1, cfg));
      && LoadState(f1).lastUpdateId == LoadState(file).lastUpdateId
      && Step(f1, updates, t2, cfg).state.lastCheckin == Some(t2)
      && !Step(f1, updates, t2, cfg).state.alertSent
  {
  }

  /**
   * A three-day limit with two recipients: silent at two days, alerting at
   * four, suppressed at five, a check-in at five, alerting again at nine.
   */
  lemma Timeline(t0: int)
    ensures var cfg := Config(1, [7, 8], 3);
      var checkin := Update(40, Some(Message(Some(1), Some(" CheckIn\n"))), None);
      var f0 := Some(State(Some(t0), None, false));
      var r1 := Step(f0, [], t0 + Days(2), cfg);
      var f1 := Persisted(f0, r1);
      var r2 := Step(f1, [], t0 + Days(4), cfg);
      var f2 := Persisted(f1, r2);
      var r3 := Step(f2, [], t0 + Days(5), cfg);
      var f3 := Persisted(f2, r3);
      var r4 := Step(f3, [checkin], t0 + Days(5), cfg);
      var f4 := Persisted(f3, r4);
      var r5 := Step(f4, [], t0 + Days(9), cfg);
      && r1.outbox == [] && f1 == f0
      && r2.outbox == [Outgoing(7, Alert(3)), Outgoing(8, Alert(3))] && f2 == Some(State(Some(t0), None, true))
      && r3.outbox == []
      && r4.outbox == [Outgoing(1, CheckinConfirmed)] && f4 == Some(State(Some(t0 + Days(5)), None, false))
      && r5.outbox == [Outgoing(7, Alert(3)), Outgoing(8, Alert(3))]
  {
  }
}
