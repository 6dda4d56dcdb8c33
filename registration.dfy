/**
  The registration conversation (bot.py:282-386, transition table
  bot.py:457-478): after "yes" on the invitation it asks for the name, the
  phone, the Telegram handle and the source, fills the user's `user_data`
  step by step, and hands the completed `user_data` to the recorder. The
  cancel word or `/cancel` ends it at any step without recording anything.
 */
module Registration {
  import opened Wrappers
  import opened Text
  import opened PhoneNumber
  import opened Sheets
  import opened Updates

  /** The conversation states; `End` is ConversationHandler.END, i.e. no conversation. */
  datatype RegState = Name | Phone | Username | Source | End

  /** The user's `context.user_data`; it is not cleared when a conversation ends. */
  type UserData = map<string, string>

  datatype Conv = Conv(state: RegState, userData: UserData)

  /** One handled update: the new conversation, and the `user_data` passed to `store_registration`, if any. */
  datatype Step = Step(next: Conv, stored: Option<UserData>)

  /** `cancel`: the conversation ends and `user_data` is left as it is. */
  function Cancelled(userData: UserData): Step {
    Step(Conv(End, userData), None)
  }

  /** `invitation_response` for the button data "yes" or "no". */
  function InvitationStep(userData: UserData, data: string): Step {
    if data == "yes" then Step(Conv(Name, userData), None) else Step(Conv(End, userData), None)
  }

  /** `get_name`: the name is kept exactly as typed. */
  function NameStep(userData: UserData, text: string): Step {
    if IsCancel(text) then Cancelled(userData)
    else Step(Conv(Phone, userData["name" := text]), None)
  }

  /** Lines 337-347: a valid phone is stored and the handle is asked for; otherwise re-prompt. */
  function PhoneChecked(userData: UserData, raw: string): Step {
    match CheckPhone(raw)
    case None => Step(Conv(Phone, userData), None)
    case Some(p) => Step(Conv(Username, userData["phone" := p]), None)
  }

  /** `get_phone`: a contact card's number is used as is, typed text is stripped and may cancel. */
  function PhoneStep(userData: UserData, u: Update): Step
    requires u.ContactMessage? || u.TextMessage?
  {
    if u.ContactMessage? then PhoneChecked(userData, u.phoneNumber)
    else if IsCancel(u.text) then Cancelled(userData)
    else PhoneChecked(userData, Strip(u.text))
  }

  /** `username.startswith("@")`. */
  predicate IsHandle(name: string) {
    |name| > 0 && name[0] == '@'
  }

  /** `get_username`: a stripped handle starting with '@' is stored; otherwise re-prompt. */
  function UsernameStep(userData: UserData, text: string): Step {
    var name := Strip(text);
    if IsCancel(text) then Cancelled(userData)
    else if IsHandle(name) then Step(Conv(Source, userData["username" := name]), None)
    else Step(Conv(Username, userData), None)
  }

  /** `get_source`: the stripped source completes the record, which is stored, and the conversation ends. */
  function SourceStep(userData: UserData, text: string): Step {
    if IsCancel(text) then Cancelled(userData)
    else
      var completed := userData["source" := Strip(text)];
      Step(Conv(End, completed), Some(completed))
  }

  /**
    The transition table: the entry point outside a conversation, the
    state's handler for the messages its filter admits, else the `/cancel`
    fallback; any other update leaves the conversation as it is. The
    "^Відміна$" handlers of each state are never reached, because the text
    handler before them already takes every such message.
   */
  function Next(c: Conv, u: Update): Step {
    var ud := c.userData;
    match c.state
    case End =>
      if u.ButtonPress? && (u.data == "yes" || u.data == "no") then InvitationStep(ud, u.data)
      else Step(c, None)
    case Name =>
      if IsPlainText(u) then NameStep(ud, u.text)
      else if IsCancelFallback(u) then Cancelled(ud)
      else Step(c, None)
    case Phone =>
      if u.ContactMessage? || IsPlainText(u) then PhoneStep(ud, u)
      else if IsCancelFallback(u) then Cancelled(ud)
      else Step(c, None)
    case Username =>
      if IsPlainText(u) then UsernameStep(ud, u.text)
      else if IsCancelFallback(u) then Cancelled(ud)
      else Step(c, None)
    case Source =>
      if IsPlainText(u) then SourceStep(ud, u.text)
      else if IsCancelFallback(u) then Cancelled(ud)
      else Step(c, None)
  }

  /** The conversation after a sequence of updates, and every `user_data` stored on the way. */
  function Run(c: Conv, us: seq<Update>): (Conv, seq<UserData>)
    decreases |us|
  {
    if us == [] then (c, [])
    else
      var step := Next(c, us[0]);
      var rest := Run(step.next, us[1..]);
      (rest.0, (if step.stored.Some? then [step.stored.value] else []) + rest.1)
  }

  /** What the conversation has collected so far, by state. */
  predicate Collected(c: Conv) {
    && (c.state == Phone || c.state == Username || c.state == Source ==> "name" in c.userData)
    && (c.state == Username || c.state == Source ==>
          "phone" in c.userData && IsValidPhone(c.userData["phone"]))
    && (c.state == Source ==> "username" in c.userData && IsHandle(c.userData["username"]))
  }

  /** A record fit for the spreadsheet: all four fields, a valid phone and a handle. */
  predicate CompleteRecord(userData: UserData) {
    && "name" in userData && "phone" in userData && "username" in userData && "source" in userData
    && IsValidPhone(userData["phone"]) && IsHandle(userData["username"])
  }

  /** Every update keeps what was collected, and only complete records are stored. */
  lemma NextKeepsCollected(c: Conv, u: Update)
    requires Collected(c)
    ensures Collected(Next(c, u).next)
    ensures Next(c, u).stored.Some? ==> CompleteRecord(Next(c, u).stored.value)
  {
    match c.state
    case End =>
    case Name => NameKeepsCollected(c, u);
    case Phone => PhoneKeepsCollected(c, u);
    case Username => UsernameKeepsCollected(c, u);
    case Source => SourceKeepsCollected(c, u);
  }

  lemma NameKeepsCollected(c: Conv, u: Update)
    requires c.state == Name
    ensures Collected(Next(c, u).next) && Next(c, u).stored.None?
  {
    if IsPlainText(u) && !IsCancel(u.text) {
      assert Next(c, u).next == Conv(Phone, c.userData["name" := u.text]);
    }
  }

  lemma PhoneKeepsCollected(c: Conv, u: Update)
    requires c.state == Phone && Collected(c)
    ensures Collected(Next(c, u).next) && Next(c, u).stored.None?
  {
    if u.ContactMessage? {
      PhoneCheckedKeepsCollected(c.userData, u.phoneNumber);
    } else if IsPlainText(u) && !IsCancel(u.text) {
      PhoneCheckedKeepsCollected(c.userData, Strip(u.text));
    }
  }

  lemma PhoneCheckedKeepsCollected(ud: UserData, raw: string)
    requires "name" in ud
    ensures Collected(PhoneChecked(ud, raw).next) && PhoneChecked(ud, raw).stored.None?
  {
    if CheckPhone(raw).Some? {
      var p := CheckPhone(raw).value;
      assert "name" != "phone";
      assert PhoneChecked(ud, raw).next == Conv(Username, ud["phone" := p]);
    }
  }

  lemma UsernameKeepsCollected(c: Conv, u: Update)
    requires c.state == Username && Collected(c)
    ensures Collected(Next(c, u).next) && Next(c, u).stored.None?
  {
    if IsPlainText(u) && !IsCancel(u.text) && IsHandle(Strip(u.text)) {
      var ud := c.userData;
      assert "name" != "username" && "phone" != "username";
      assert Next(c, u).next == Conv(Source, ud["username" := Strip(u.text)]);
    }
  }

  lemma SourceKeepsCollected(c: Conv, u: Update)
    requires c.state == Source && Collected(c)
    ensures Collected(Next(c, u).next)
    ensures Next(c, u).stored.Some? ==> CompleteRecord(Next(c, u).stored.value)
  {
  }

  /** Over any sequence of updates, every stored record is complete and valid. */
  lemma {:induction false} RunStoresCompleteRecords(c: Conv, us: seq<Update>)
    requires Collected(c)
    ensures Collected(Run(c, us).0)
    ensures forall k :: 0 <= k < |Run(c, us).1| ==> CompleteRecord(Run(c, us).1[k])
    decreases |us|
  {
    if us != [] {
      NextKeepsCollected(c, us[0]);
      RunStoresCompleteRecords(Next(c, us[0]).next, us[1..]);
    }
  }

  /** A record is stored only by a non-cancelling text in the source step, which ends the conversation. */
  lemma StoresOnlyFromSource(c: Conv, u: Update)
    requires Next(c, u).stored.Some?
    ensures c.state == Source && IsPlainText(u) && !IsCancel(u.text)
    ensures Next(c, u).next.state == End
    ensures Next(c, u).stored.value == c.userData["source" := Strip(u.text)]
  {
  }

  /**
    The cancel word in any case, or `/cancel`, ends the conversation from
    every step, stores nothing and leaves `user_data` untouched.
   */
  lemma CancelFromAnyStep(c: Conv, u: Update)
    requires c.state != End
    requires (u.TextMessage? && IsCancel(u.text)) || IsCancelFallback(u)
    ensures Next(c, u) == Cancelled(c.userData)
  {
    if u.TextMessage? && IsCancel(u.text) {
      CancelWordIsPlainText(u.text);
    }
  }

  /** The cancel word never passes for a phone. */
  lemma CancelWordIsNoPhone(text: string)
    requires IsCancel(text)
    ensures CheckPhone(Strip(text)).None?
  {
    var w := Strip(text);
    LowerEach(w);
    forall i | 0 <= i < |w| ensures !IsPhoneChar(w[i]) {
      assert LowerChar(w[i]) == CancelWord[i];
    }
    KeepPhoneCharsNone(w);
  }

  /**
    In the phone step a typed phone is accepted exactly when it passes the
    check, and then stored in its cleaned form; a refused phone re-prompts
    with nothing stored.
   */
  lemma PhoneStepAcceptsExactly(c: Conv, text: string)
    requires c.state == Phone && !IsCommand(text)
    ensures var step := Next(c, TextMessage(text));
      && step.stored.None?
      && (step.next.state == Username <==> CheckPhone(Strip(text)).Some?)
      && (step.next.state == Username ==>
            step.next.userData == c.userData["phone" := CheckPhone(Strip(text)).value])
      && (step.next.state != Username ==> step.next.userData == c.userData)
      && (step.next.state == Phone <==> CheckPhone(Strip(text)).None? && !IsCancel(text))
  {
    if IsCancel(text) {
      CancelWordIsNoPhone(text);
    }
  }

  /** A shared contact's number goes through the same check, and never cancels. */
  lemma ContactStepAcceptsExactly(c: Conv, number: string)
    requires c.state == Phone
    ensures var step := Next(c, ContactMessage(number));
      && step.stored.None?
      && (CheckPhone(number).Some? ==>
            step.next == Conv(Username, c.userData["phone" := CheckPhone(number).value]))
      && (CheckPhone(number).None? ==> step.next == c)
  {
  }

  /**
    In the handle step a typed handle is accepted exactly when, stripped, it
    starts with '@'; a refused one re-prompts with nothing stored.
   */
  lemma UsernameStepAcceptsExactly(c: Conv, text: string)
    requires c.state == Username && !IsCommand(text)
    ensures var step := Next(c, TextMessage(text));
      && step.stored.None?
      && (step.next.state == Source <==> IsHandle(Strip(text)))
      && (step.next.state == Source ==> step.next.userData == c.userData["username" := Strip(text)])
      && (step.next.state != Source ==> step.next.userData == c.userData)
      && (step.next.state == Username <==> !IsHandle(Strip(text)) && !IsCancel(text))
  {
    HandleIsNoCancel(text);
  }

  /** A handle starting with '@' is never the cancel word. */
  lemma HandleIsNoCancel(text: string)
    ensures IsHandle(Strip(text)) ==> !IsCancel(text)
  {
    if IsHandle(Strip(text)) {
      assert Lower(Strip(text))[0] == '@';
    }
  }

  /** Running the updates one after another: the first update's step, then the rest. */
  lemma RunCons(c: Conv, u: Update, us: seq<Update>)
    ensures var step := Next(c, u);
      var rest := Run(step.next, us);
      Run(c, [u] + us) == (rest.0, (if step.stored.Some? then [step.stored.value] else []) + rest.1)
  {
    assert ([u] + us)[1..] == us;
  }

  /**
    The whole flow: "yes", a name, a valid phone, a handle and a source end
    the conversation with exactly one record stored, made of the four
    answers.
   */
  lemma CompletedRegistration(ud: UserData, name: string, phone: string, handle: string, source: string)
    requires !IsCommand(name) && !IsCancel(name)
    requires !IsCommand(phone) && CheckPhone(Strip(phone)).Some?
    requires !IsCommand(handle) && IsHandle(Strip(handle))
    requires !IsCommand(source) && !IsCancel(source)
    ensures var r := Run(Conv(End, ud),
      [ButtonPress("yes"), TextMessage(name), TextMessage(phone), TextMessage(handle), TextMessage(source)]);
      && r.0.state == End
      && |r.1| == 1
      && RowOf(r.1[0]) == [name, CheckPhone(Strip(phone)).value, Strip(handle), Strip(source)]
  {
    var p := CheckPhone(Strip(phone)).value;
    var ud2 := ud["name" := name];
    var ud3 := ud2["phone" := p];
    var ud4 := ud3["username" := Strip(handle)];
    var done := ud4["source" := Strip(source)];
    YesStepTaken(ud);
    NameStepTaken(Conv(Name, ud), name);
    PhoneStepTaken(Conv(Phone, ud2), phone);
    HandleStepTaken(Conv(Username, ud3), handle);
    SourceStepTaken(Conv(Source, ud4), source);
    RunThroughFlow(Conv(End, ud), Conv(Name, ud), Conv(Phone, ud2), Conv(Username, ud3), Conv(Source, ud4), done,
      ButtonPress("yes"), TextMessage(name), TextMessage(phone), TextMessage(handle), TextMessage(source));
    RowOfFilled(ud, name, p, Strip(handle), Strip(source));
  }

  /** The four answers, filled in one after another, make the row in that order. */
  lemma RowOfFilled(ud: UserData, name: string, phone: string, handle: string, source: string)
    ensures RowOf(ud["name" := name]["phone" := phone]["username" := handle]["source" := source])
         == [name, phone, handle, source]
  {
    assert "name" != "phone" && "name" != "username" && "name" != "source";
    assert "phone" != "username" && "phone" != "source" && "username" != "source";
  }

  /** Five steps that store nothing until the last one, which stores once and ends. */
  lemma RunThroughFlow(c0: Conv, c1: Conv, c2: Conv, c3: Conv, c4: Conv, done: UserData,
                       u0: Update, u1: Update, u2: Update, u3: Update, u4: Update)
    requires Next(c0, u0) == Step(c1, None) && Next(c1, u1) == Step(c2, None)
    requires Next(c2, u2) == Step(c3, None) && Next(c3, u3) == Step(c4, None)
    requires Next(c4, u4) == Step(Conv(End, done), Some(done))
    ensures Run(c0, [u0, u1, u2, u3, u4]) == (Conv(End, done), [done])
  {
    RunLast(c4, u4, done);
    RunSilentStep(c3, u3, [u4], c4);
    assert [u3] + [u4] == [u3, u4];
    RunSilentStep(c2, u2, [u3, u4], c3);
    assert [u2] + [u3, u4] == [u2, u3, u4];
    RunSilentStep(c1, u1, [u2, u3, u4], c2);
    assert [u1] + [u2, u3, u4] == [u1, u2, u3, u4];
    RunSilentStep(c0, u0, [u1, u2, u3, u4], c1);
    assert [u0] + [u1, u2, u3, u4] == [u0, u1, u2, u3, u4];
  }

  /** An update that stores nothing only moves the conversation on. */
  lemma RunSilentStep(c: Conv, u: Update, us: seq<Update>, c': Conv)
    requires Next(c, u) == Step(c', None)
    ensures Run(c, [u] + us) == Run(c', us)
  {
    RunCons(c, u, us);
    var rest := Run(c', us);
    assert [] + rest.1 == rest.1;
  }

  /** A last update that stores a record and ends the conversation. */
  lemma RunLast(c: Conv, u: Update, done: UserData)
    requires Next(c, u) == Step(Conv(End, done), Some(done))
    ensures Run(c, [u]) == (Conv(End, done), [done])
  {
    RunCons(c, u, []);
    assert [u] + [] == [u];
    assert Run(Conv(End, done), []) == (Conv(End, done), []);
    assert [done] + [] == [done];
  }

  lemma YesStepTaken(ud: UserData)
    ensures Next(Conv(End, ud), ButtonPress("yes")) == Step(Conv(Name, ud), None)
  {
  }

  lemma PhoneStepTaken(c: Conv, phone: string)
    requires c.state == Phone && !IsCommand(phone) && CheckPhone(Strip(phone)).Some?
    ensures Next(c, TextMessage(phone))
         == Step(Conv(Username, c.userData["phone" := CheckPhone(Strip(phone)).value]), None)
  {
    if IsCancel(phone) {
      CancelWordIsNoPhone(phone);
    }
  }

  lemma HandleStepTaken(c: Conv, handle: string)
    requires c.state == Username && !IsCommand(handle) && IsHandle(Strip(handle))
    ensures Next(c, TextMessage(handle)) == Step(Conv(Source, c.userData["username" := Strip(handle)]), None)
  {
    HandleIsNoCancel(handle);
  }

  lemma NameStepTaken(c: Conv, name: string)
    requires c.state == Name && !IsCommand(name) && !IsCancel(name)
    ensures Next(c, TextMessage(name)) == Step(Conv(Phone, c.userData["name" := name]), None)
  {
  }

  lemma SourceStepTaken(c: Conv, source: string)
    requires c.state == Source && !IsCommand(source) && !IsCancel(source)
    ensures var done := c.userData["source" := Strip(source)];
      Next(c, TextMessage(source)) == Step(Conv(End, done), Some(done))
  {
  }

  class Session {
    var state: RegState
    var userData: UserData

    constructor ()
      ensures state == End && userData == map[]
    {
      state := End;
      userData := map[];
    }

    method InvitationResponse(data: string)
      modifies this
      ensures Conv(state, userData) == InvitationStep(old(userData), data).next
    {
      if data == "yes" {
        state := Name;
      } else {
        state := End;
      }
    }

    method Cancel()
      modifies this
      ensures Conv(state, userData) == Cancelled(old(userData)).next
    {
      state := End;
    }

    method GetName(text: string)
      modifies this
      ensures Conv(state, userData) == NameStep(old(userData), text).next
    {
      if IsCancel(text) {
        Cancel();
        return;
      }
      userData := userData["name" := text];
      state := Phone;
    }

    method GetPhone(u: Update)
      requires u.ContactMessage? || u.TextMessage?
      modifies this
      ensures Conv(state, userData) == PhoneStep(old(userData), u).next
    {
      var raw;
      if u.ContactMessage? {
        raw := u.phoneNumber;
      } else {
        raw := Strip(u.text);
        if IsCancel(u.text) {
          Cancel();
          return;
        }
      }
      var phone := Normalize(raw);
      if !IsValidPhone(phone) {
        state := Phone;
        return;
      }
      userData := userData["phone" := phone];
      state := Username;
    }

    method GetUsername(text: string)
      modifies this
      ensures Conv(state, userData) == UsernameStep(old(userData), text).next
    {
      var name := Strip(text);
      if IsCancel(text) {
        Cancel();
        return;
      }
      if !IsHandle(name) {
        state := Username;
        return;
      }
      userData := userData["username" := name];
      state := Source;
    }

    /** `get_source`, recording into the worksheet of the current event date. */
    method GetSource(text: string, eventDate: string, book: Workbook, serviceOk: bool)
      modifies this, book
      ensures Conv(state, userData) == SourceStep(old(userData), text).next
      ensures var stored := SourceStep(old(userData), text).stored;
        book.sheets == if stored.Some? && serviceOk
                       then Recorded(old(book.sheets), eventDate, RowOf(stored.value))
                       else old(book.sheets)
    {
      if IsCancel(text) {
        Cancel();
        return;
      }
      userData := userData["source" := Strip(text)];
      book.StoreRegistration(eventDate, userData, serviceOk);
      state := End;
    }

    /** Dispatches one update through the transition table. */
    method Handle(u: Update, eventDate: string, book: Workbook, serviceOk: bool)
      modifies this, book
      ensures var step := Next(old(Conv(state, userData)), u);
        && Conv(state, userData) == step.next
        && book.sheets == if step.stored.Some? && serviceOk
                          then Recorded(old(book.sheets), eventDate, RowOf(step.stored.value))
                          else old(book.sheets)
    {
      match state
      case End =>
        if u.ButtonPress? && (u.data == "yes" || u.data == "no") {
          InvitationResponse(u.data);
        }
      case Name => HandleName(u);
      case Phone => HandlePhone(u);
      case Username => HandleUsername(u);
      case Source => HandleSource(u, eventDate, book, serviceOk);
    }

    method HandleName(u: Update)
      requires state == Name
      modifies this
      ensures Conv(state, userData) == Next(old(Conv(state, userData)), u).next
      ensures Next(old(Conv(state, userData)), u).stored.None?
    {
      if IsPlainText(u) {
        GetName(u.text);
      } else if IsCancelFallback(u) {
        Cancel();
      }
    }

    method HandlePhone(u: Update)
      requires state == Phone
      modifies this
      ensures Conv(state, userData) == Next(old(Conv(state, userData)), u).next
      ensures Next(old(Conv(state, userData)), u).stored.None?
    {
      if u.ContactMessage? || IsPlainText(u) {
        GetPhone(u);
      } else if IsCancelFallback(u) {
        Cancel();
      }
    }

    method HandleUsername(u: Update)
      requires state == Username
      modifies this
      ensures Conv(state, userData) == Next(old(Conv(state, userData)), u).next
      ensures Next(old(Conv(state, userData)), u).stored.None?
    {
      if IsPlainText(u) {
        GetUsername(u.text);
      } else if IsCancelFallback(u) {
        Cancel();
      }
    }

    method HandleSource(u: Update, eventDate: string, book: Workbook, serviceOk: bool)
      requires state == Source
      modifies this, book
      ensures var step := Next(old(Conv(state, userData)), u);
        && Conv(state, userData) == step.next
        && book.sheets == if step.stored.Some? && serviceOk
                          then Recorded(old(book.sheets), eventDate, RowOf(step.stored.value))
                          else old(book.sheets)
    {
      if IsPlainText(u) {
        GetSource(u.text, eventDate, book, serviceOk);
      } else if IsCancelFallback(u) {
        Cancel();
      }
    }
  }
}
