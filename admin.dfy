/**
  The admin side of the bot (bot.py:389-448, transition table
  bot.py:480-489): the `/admin` panel, the conversation that edits the
  event's date, time and location one after another and saves them after
  the last one, and the broadcast of a text to every registered chat.
 */
module Admin {
  import opened Wrappers
  import opened Numerals
  import opened Updates
  import opened Settings
  import opened Users

  /** `ADMIN_IDS`. */
  const AdminIds: set<int> := {1124775269, 382701754}

  /** `admin`: the panel with its two buttons is shown only to an id on the allow-list. */
  predicate PanelShown(userId: int) {
    userId in AdminIds
  }

  /** The conversation states; `Idle` is ConversationHandler.END, i.e. no conversation. */
  datatype AdminState = AwaitDate | AwaitTime | AwaitLocation | AwaitBroadcast | Idle

  /** What a handled update does besides moving the conversation. */
  datatype Action =
    | NoAction
    | SetDate(date: string)                  // `admin_set_date`
    | SetTime(time: string)                  // `admin_set_time`
    | SetLocationAndSave(location: string)   // `admin_set_location`, then `save_settings`
    | BroadcastText(text: string)            // `admin_broadcast_message`

  datatype AdminStep = AdminStep(next: AdminState, action: Action)

  /**
    The transition table. Outside a conversation only the entry callback
    counts, and only when `entryAllowed`; inside, the state's handler takes
    plain text, else the `/cancel` fallback ends the conversation; any other
    update leaves it as it is. The texts are used exactly as typed.
   */
  function StepWith(s: AdminState, entryAllowed: bool, u: Update): AdminStep {
    match s
    case Idle =>
      if entryAllowed && u.ButtonPress? && u.data == "admin_change" then AdminStep(AwaitDate, NoAction)
      else if entryAllowed && u.ButtonPress? && u.data == "admin_broadcast" then AdminStep(AwaitBroadcast, NoAction)
      else AdminStep(Idle, NoAction)
    case AwaitDate =>
      if IsPlainText(u) then AdminStep(AwaitTime, SetDate(u.text))
      else if IsCancelFallback(u) then AdminStep(Idle, NoAction)
      else AdminStep(s, NoAction)
    case AwaitTime =>
      if IsPlainText(u) then AdminStep(AwaitLocation, SetTime(u.text))
      else if IsCancelFallback(u) then AdminStep(Idle, NoAction)
      else AdminStep(s, NoAction)
    case AwaitLocation =>
      if IsPlainText(u) then AdminStep(Idle, SetLocationAndSave(u.text))
      else if IsCancelFallback(u) then AdminStep(Idle, NoAction)
      else AdminStep(s, NoAction)
    case AwaitBroadcast =>
      if IsPlainText(u) then AdminStep(Idle, BroadcastText(u.text))
      else if IsCancelFallback(u) then AdminStep(Idle, NoAction)
      else AdminStep(s, NoAction)
  }

  /** bot.py:401-409 as written: `admin_callback` lets anyone who presses a panel button in. */
  function NextAsWritten(s: AdminState, u: Update): AdminStep {
    StepWith(s, true, u)
  }

  /** The conversation with the allow-list also checked on entry, for the sender of the update. */
  function Next(s: AdminState, sender: int, u: Update): AdminStep {
    StepWith(s, PanelShown(sender), u)
  }

  /** The final state after a sequence of updates, and the action of each update in turn. */
  function RunWith(s: AdminState, entryAllowed: bool, us: seq<Update>): (AdminState, seq<Action>)
    decreases |us|
  {
    if us == [] then (s, [])
    else
      var step := StepWith(s, entryAllowed, us[0]);
      var rest := RunWith(step.next, entryAllowed, us[1..]);
      (rest.0, [step.action] + rest.1)
  }

  function RunAsWritten(s: AdminState, us: seq<Update>): (AdminState, seq<Action>) {
    RunWith(s, true, us)
  }

  function Run(s: AdminState, sender: int, us: seq<Update>): (AdminState, seq<Action>) {
    RunWith(s, PanelShown(sender), us)
  }

  /** The event settings after an action: each `admin_set_*` overwrites its global. */
  function Apply(e: EventSettings, a: Action): EventSettings {
    match a
    case SetDate(d) => e.(date := d)
    case SetTime(t) => e.(time := t)
    case SetLocationAndSave(l) => e.(location := l)
    case _ => e
  }

  function ApplyAll(e: EventSettings, actions: seq<Action>): EventSettings
    decreases |actions|
  {
    if actions == [] then e else ApplyAll(Apply(e, actions[0]), actions[1..])
  }

  /** How many times `save_settings` runs along a sequence of actions. */
  function Saves(actions: seq<Action>): nat
    decreases |actions|
  {
    if actions == [] then 0
    else (if actions[0].SetLocationAndSave? then 1 else 0) + Saves(actions[1..])
  }

  /** A conversation already under way behaves the same for every sender; admins are never affected. */
  lemma GateOnlyOnEntry(s: AdminState, sender: int, u: Update)
    requires s != Idle || PanelShown(sender)
    ensures Next(s, sender, u) == NextAsWritten(s, u)
  {
  }

  /** With the gate, entering the conversation needs the panel's permission. */
  lemma EntryNeedsPanel(sender: int, u: Update)
    ensures Next(Idle, sender, u).next != Idle <==>
      PanelShown(sender) && u.ButtonPress? && (u.data == "admin_change" || u.data == "admin_broadcast")
  {
  }

  /**
    As written, a sender who is refused the panel can still press its
    "admin_change" button and rewrite and save the event settings.
   */
  lemma NonAdminEditsAsWritten(d: string, t: string, l: string, before: EventSettings)
    requires !IsCommand(d) && !IsCommand(t) && !IsCommand(l)
    ensures var outsider := 42;
      var r := RunAsWritten(Idle, [ButtonPress("admin_change"), TextMessage(d), TextMessage(t), TextMessage(l)]);
      && !PanelShown(outsider)
      && r.0 == Idle
      && ApplyAll(before, r.1) == EventSettings(d, t, l)
      && Saves(r.1) == 1
  {
    EditRun(true, d, t, l);
    EditEffects(before, d, t, l);
  }

  /** With the gate, whatever a non-admin sends, the conversation never starts and nothing happens. */
  lemma {:induction false} NonAdminNeverEnters(sender: int, us: seq<Update>)
    requires !PanelShown(sender)
    ensures Run(Idle, sender, us).0 == Idle
    ensures forall k :: 0 <= k < |Run(Idle, sender, us).1| ==> Run(Idle, sender, us).1[k] == NoAction
    decreases |us|
  {
    if us != [] {
      assert Next(Idle, sender, us[0]) == AdminStep(Idle, NoAction);
      NonAdminNeverEnters(sender, us[1..]);
    }
  }

  /** One update first, then the rest. */
  lemma RunPrepend(s: AdminState, a: bool, u: Update, us: seq<Update>)
    ensures var step := StepWith(s, a, u);
      var rest := RunWith(step.next, a, us);
      RunWith(s, a, [u] + us) == (rest.0, [step.action] + rest.1)
  {
    assert ([u] + us)[1..] == us;
  }

  /** A single update. */
  lemma RunSingle(s: AdminState, a: bool, u: Update)
    ensures var step := StepWith(s, a, u);
      RunWith(s, a, [u]) == (step.next, [step.action])
  {
    RunPrepend(s, a, u, []);
    assert [u] + [] == [u];
    var step := StepWith(s, a, u);
    assert [step.action] + [] == [step.action];
  }

  /** The actions of "admin_change" followed by the date, time and location texts. */
  lemma EditRun(a: bool, d: string, t: string, l: string)
    requires a && !IsCommand(d) && !IsCommand(t) && !IsCommand(l)
    ensures RunWith(Idle, a, [ButtonPress("admin_change"), TextMessage(d), TextMessage(t), TextMessage(l)])
         == (Idle, [NoAction, SetDate(d), SetTime(t), SetLocationAndSave(l)])
  {
    RunSingle(AwaitLocation, a, TextMessage(l));
    RunPrepend(AwaitTime, a, TextMessage(t), [TextMessage(l)]);
    assert [TextMessage(t)] + [TextMessage(l)] == [TextMessage(t), TextMessage(l)];
    RunPrepend(AwaitDate, a, TextMessage(d), [TextMessage(t), TextMessage(l)]);
    assert [TextMessage(d)] + [TextMessage(t), TextMessage(l)] == [TextMessage(d), TextMessage(t), TextMessage(l)];
    RunPrepend(Idle, a, ButtonPress("admin_change"), [TextMessage(d), TextMessage(t), TextMessage(l)]);
    assert [ButtonPress("admin_change")] + [TextMessage(d), TextMessage(t), TextMessage(l)]
        == [ButtonPress("admin_change"), TextMessage(d), TextMessage(t), TextMessage(l)];
    assert [SetTime(t)] + [SetLocationAndSave(l)] == [SetTime(t), SetLocationAndSave(l)];
    assert [SetDate(d)] + [SetTime(t), SetLocationAndSave(l)] == [SetDate(d), SetTime(t), SetLocationAndSave(l)];
    assert [NoAction] + [SetDate(d), SetTime(t), SetLocationAndSave(l)]
        == [NoAction, SetDate(d), SetTime(t), SetLocationAndSave(l)];
  }

  /** Applying one action first, then the rest. */
  lemma ApplyPrepend(e: EventSettings, x: Action, rest: seq<Action>)
    ensures ApplyAll(e, [x] + rest) == ApplyAll(Apply(e, x), rest)
    ensures Saves([x] + rest) == (if x.SetLocationAndSave? then 1 else 0) + Saves(rest)
  {
    assert ([x] + rest)[1..] == rest;
  }

  /** The three edits replace the whole settings, and save once. */
  lemma EditEffects(before: EventSettings, d: string, t: string, l: string)
    ensures var actions := [NoAction, SetDate(d), SetTime(t), SetLocationAndSave(l)];
      ApplyAll(before, actions) == EventSettings(d, t, l) && Saves(actions) == 1
  {
    var actions := [NoAction, SetDate(d), SetTime(t), SetLocationAndSave(l)];
    ApplyPrepend(before.(date := d).(time := t), SetLocationAndSave(l), []);
    assert [SetLocationAndSave(l)] + [] == actions[3..];
    ApplyPrepend(before.(date := d), SetTime(t), actions[3..]);
    assert [SetTime(t)] + actions[3..] == actions[2..];
    ApplyPrepend(before, SetDate(d), actions[2..]);
    assert [SetDate(d)] + actions[2..] == actions[1..];
    ApplyPrepend(before, NoAction, actions[1..]);
    assert [NoAction] + actions[1..] == actions;
  }

  /**
    An admin's edit: "admin_change", then the date, time and location texts,
    sets all three settings as typed, saves exactly once, and ends.
   */
  lemma AdminEdit(sender: int, d: string, t: string, l: string, before: EventSettings)
    requires PanelShown(sender) && !IsCommand(d) && !IsCommand(t) && !IsCommand(l)
    ensures var r := Run(Idle, sender, [ButtonPress("admin_change"), TextMessage(d), TextMessage(t), TextMessage(l)]);
      && r.0 == Idle
      && ApplyAll(before, r.1) == EventSettings(d, t, l)
      && Saves(r.1) == 1
  {
    EditRun(PanelShown(sender), d, t, l);
    EditEffects(before, d, t, l);
  }

  /** The settings are saved only by the location text, which ends the conversation. */
  lemma SaveOnlyAfterLocation(s: AdminState, sender: int, u: Update)
    ensures Next(s, sender, u).action.SetLocationAndSave? <==> s == AwaitLocation && IsPlainText(u)
    ensures Next(s, sender, u).action.SetLocationAndSave? ==> Next(s, sender, u).next == Idle
  {
  }

  /** `/cancel` ends the conversation from every state, with no action of its own. */
  lemma CancelFromAnyAdminStep(s: AdminState, sender: int, u: Update)
    requires s != Idle && IsCancelFallback(u)
    ensures Next(s, sender, u) == AdminStep(Idle, NoAction)
  {
  }

  /**
    `/cancel` after the date keeps the new date in memory, but the
    settings are never saved.
   */
  lemma CancelAfterDate(sender: int, d: string, c: string, before: EventSettings)
    requires PanelShown(sender) && !IsCommand(d) && IsCancelCommand(c)
    ensures var r := Run(Idle, sender, [ButtonPress("admin_change"), TextMessage(d), TextMessage(c)]);
      && r.0 == Idle
      && ApplyAll(before, r.1) == before.(date := d)
      && Saves(r.1) == 0
  {
    var a := PanelShown(sender);
    RunSingle(AwaitTime, a, TextMessage(c));
    RunPrepend(AwaitDate, a, TextMessage(d), [TextMessage(c)]);
    assert [TextMessage(d)] + [TextMessage(c)] == [TextMessage(d), TextMessage(c)];
    RunPrepend(Idle, a, ButtonPress("admin_change"), [TextMessage(d), TextMessage(c)]);
    assert [ButtonPress("admin_change")] + [TextMessage(d), TextMessage(c)]
        == [ButtonPress("admin_change"), TextMessage(d), TextMessage(c)];
    var actions := [NoAction, SetDate(d), NoAction];
    ApplyPrepend(before.(date := d), NoAction, []);
    assert [NoAction] + [] == actions[2..];
    ApplyPrepend(before, SetDate(d), actions[2..]);
    assert [SetDate(d)] + actions[2..] == actions[1..];
    ApplyPrepend(before, NoAction, actions[1..]);
    assert [NoAction] + actions[1..] == actions;
  }

  /** An admin's "admin_broadcast" then a text hands the text, as typed, to the broadcast. */
  lemma AdminBroadcast(sender: int, text: string)
    requires PanelShown(sender) && !IsCommand(text)
    ensures Run(Idle, sender, [ButtonPress("admin_broadcast"), TextMessage(text)])
         == (Idle, [NoAction, BroadcastText(text)])
  {
    var a := PanelShown(sender);
    RunSingle(AwaitBroadcast, a, TextMessage(text));
    RunPrepend(Idle, a, ButtonPress("admin_broadcast"), [TextMessage(text)]);
    assert [ButtonPress("admin_broadcast")] + [TextMessage(text)] == [ButtonPress("admin_broadcast"), TextMessage(text)];
    assert [NoAction] + [BroadcastText(text)] == [NoAction, BroadcastText(text)];
  }

  /** `send_message(chat_id=int(uid))` succeeds: the line parses as an int and that chat can be reached. */
  predicate SendSucceeds(uid: string, reachable: set<int>) {
    ParseInt(uid).Some? && ParseInt(uid).value in reachable
  }

  /** The chat one line reaches: its id when the send succeeds, none otherwise. */
  function Recipient(uid: string, reachable: set<int>): (r: seq<int>)
    ensures r != [] <==> SendSucceeds(uid, reachable)
    ensures r != [] ==> r == [ParseInt(uid).value] && r[0] in reachable
  {
    if SendSucceeds(uid, reachable) then [ParseInt(uid).value] else []
  }

  /** The chats reached, in the order of the lines; a failed send is skipped. */
  function Delivered(users: seq<string>, reachable: set<int>): seq<int>
    decreases |users|
  {
    if users == [] then []
    else
      Recipient(users[0], reachable) + Delivered(users[1..], reachable)
  }

  /** At most one send per line, and only to chats that can be reached. */
  lemma {:induction false} DeliveredReachable(users: seq<string>, reachable: set<int>)
    ensures |Delivered(users, reachable)| <= |users|
    ensures forall id :: id in Delivered(users, reachable) ==> id in reachable
    decreases |users|
  {
    if users != [] {
      DeliveredReachable(users[1..], reachable);
    }
  }

  /** The lines whose send fails. */
  function Failed(users: seq<string>, reachable: set<int>): seq<string>
    decreases |users|
  {
    if users == [] then []
    else
      var rest := Failed(users[1..], reachable);
      if SendSucceeds(users[0], reachable) then rest else [users[0]] + rest
  }

  /** A failure never stops the loop: the lines after it are sent to all the same. */
  lemma {:induction false} DeliveredConcat(a: seq<string>, b: seq<string>, reachable: set<int>)
    ensures Delivered(a + b, reachable) == Delivered(a, reachable) + Delivered(b, reachable)
    decreases |a|
  {
    if a == [] {
      assert a + b == b;
    } else {
      assert (a + b)[1..] == a[1..] + b;
      DeliveredConcat(a[1..], b, reachable);
    }
  }

  lemma DeliveredOne(uid: string, reachable: set<int>)
    ensures Delivered([uid], reachable) == Recipient(uid, reachable)
  {
    assert [uid][1..] == [];
  }

  /** The loop's step: one more line sends to its chat, or to none. */
  lemma DeliveredSnoc(done: seq<string>, uid: string, reachable: set<int>)
    ensures Delivered(done + [uid], reachable) == Delivered(done, reachable) + Recipient(uid, reachable)
  {
    DeliveredConcat(done, [uid], reachable);
    DeliveredOne(uid, reachable);
  }

  /** Every line is either sent or counted as a failure. */
  lemma {:induction false} DeliveredOrFailed(users: seq<string>, reachable: set<int>)
    ensures |Delivered(users, reachable)| + |Failed(users, reachable)| == |users|
    decreases |users|
  {
    if users != [] {
      DeliveredOrFailed(users[1..], reachable);
    }
  }

  /** A line whose send succeeds puts its chat among those reached. */
  lemma {:induction false} DeliveredContains(users: seq<string>, i: int, reachable: set<int>)
    requires 0 <= i < |users| && SendSucceeds(users[i], reachable)
    ensures ParseInt(users[i]).value in Delivered(users, reachable)
    decreases |users|
  {
    if i > 0 {
      assert users[1..][i - 1] == users[i];
      DeliveredContains(users[1..], i - 1, reachable);
    } else {
      assert Recipient(users[0], reachable) == [ParseInt(users[0]).value];
    }
  }

  /** Every registered chat that can be reached gets the broadcast. */
  lemma RegisteredReachableReceive(ids: seq<int>, reachable: set<int>, k: int)
    requires 0 <= k < |ids| && ids[k] in reachable && WithinDigitLimit(ids[k])
    ensures ids[k] in Delivered(AddAll([], ids), reachable)
  {
    AddAllGrows([], ids);
    var users := AddAll([], ids);
    var i :| 0 <= i < |users| && users[i] == IntToString(ids[k]);
    ParseIntRoundTrip(ids[k]);
    DeliveredContains(users, i, reachable);
  }

  /**
    Lines 434-440: try every line in order; `count` is the number of
    successful sends, and `sent` the chats reached.
   */
  method SendAll(users: seq<string>, reachable: set<int>) returns (count: nat, sent: seq<int>)
    ensures sent == Delivered(users, reachable)
    ensures count == |sent|
  {
    count := 0;
    sent := [];
    var i := 0;
    while i < |users|
      invariant 0 <= i <= |users|
      invariant sent == Delivered(users[..i], reachable)
      invariant count == |sent|
    {
      var reached := Recipient(users[i], reachable);
      SendStep(users, i, reachable, sent);
      if reached != [] {
        count := count + 1;
      }
      sent := sent + reached;
      i := i + 1;
    }
    assert users[..i] == users;
  }

  /** One turn of the sending loop: the line's recipient, if any, joins those reached so far. */
  lemma SendStep(users: seq<string>, i: int, reachable: set<int>, sent: seq<int>)
    requires 0 <= i < |users| && sent == Delivered(users[..i], reachable)
    ensures sent + Recipient(users[i], reachable) == Delivered(users[..i + 1], reachable)
    ensures |Recipient(users[i], reachable)| <= 1
  {
    assert users[..i + 1] == users[..i] + [users[i]];
    DeliveredSnoc(users[..i], users[i], reachable);
  }

  /** The reply to the broadcast: no users at all, or the number of chats reached. */
  datatype BroadcastReport = NoUsers | Sent(count: nat)

  /** Lines 433-443: with no users nothing is sent; otherwise every line is tried. */
  method Broadcast(users: seq<string>, reachable: set<int>) returns (report: BroadcastReport, sent: seq<int>)
    ensures report.NoUsers? <==> users == []
    ensures sent == Delivered(users, reachable)
    ensures report.Sent? ==> report.count == |sent| && report.count + |Failed(users, reachable)| == |users|
  {
    if users == [] {
      report := NoUsers;
      sent := [];
    } else {
      var count;
      count, sent := SendAll(users, reachable);
      DeliveredOrFailed(users, reachable);
      report := Sent(count);
    }
  }

  /** One admin conversation, over the shared settings store and user registry. */
  class AdminSession {
    var state: AdminState

    constructor ()
      ensures state == Idle
    {
      state := Idle;
    }

    /**
      Handles one update as the dispatcher does (bot.py:401-448): moves the
      conversation by the table as written, whose entry callback lets any
      sender in, applies the edit to the in-memory settings, saves after the
      location, and runs the broadcast over the loaded users, whose report
      is returned.
     */
    method Handle(u: Update, settings: SettingsStore, registry: UserRegistry,
                  reachable: set<int>, downloadOk: bool, writeOk: bool, uploadOk: bool)
      returns (report: Option<BroadcastReport>, sent: seq<int>)
      modifies this, settings, registry
      ensures var step := NextAsWritten(old(state), u);
        && state == step.next
        && settings.current == Apply(old(settings.current), step.action)
        && (step.action.SetLocationAndSave? ==>
              && settings.local == (if writeOk then Some(JsonObject(ToJson(settings.current))) else old(settings.local))
              && settings.remote == (if writeOk && uploadOk then Some(JsonObject(ToJson(settings.current))) else old(settings.remote)))
        && (!step.action.SetLocationAndSave? ==>
              settings.local == old(settings.local) && settings.remote == old(settings.remote))
      ensures var step := NextAsWritten(old(state), u);
        var loaded := if old(registry.local).None? && downloadOk then old(registry.remote) else old(registry.local);
        var users := if loaded.Some? then loaded.value else [];
        && registry.remote == old(registry.remote)
        && (step.action.BroadcastText? ==>
              && registry.local == loaded
              && sent == Delivered(users, reachable)
              && report == Some(if users == [] then NoUsers else Sent(|sent|)))
        && (!step.action.BroadcastText? ==>
              registry.local == old(registry.local) && report == None && sent == [])
    {
      var step := NextAsWritten(state, u);
      state := step.next;
      report := None;
      sent := [];
      match step.action
      case SetDate(d) =>
        settings.current := settings.current.(date := d);
      case SetTime(t) =>
        settings.current := settings.current.(time := t);
      case SetLocationAndSave(l) =>
        settings.current := settings.current.(location := l);
        settings.SaveSettings(writeOk, uploadOk);
      case BroadcastText(_) =>
        var users := registry.LoadUsers(downloadOk);
        var r;
        r, sent := Broadcast(users, reachable);
        report := Some(r);
      case NoAction =>
    }
  }
}
