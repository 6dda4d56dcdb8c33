# Event registration bot — verified model

A Dafny model of the core of a Telegram bot (`bot.py`) that invites people
to a party, registers them through a short conversation and lets two
administrators edit the event and broadcast messages. The model covers:

- **Phone normalisation** (`get_phone`): keep digits and `+`, put a `+` in
  front when it is missing, accept only `+380` followed by nine digits
  (module `PhoneNumber`, file `phone_number.dfy`).
- **The registration conversation** (`invitation_response`, `get_name`,
  `get_phone`, `get_username`, `get_source`, `cancel` and the conversation
  handler's transition table): the states Name → Phone → Username → Source,
  the user's `user_data` that fills in step by step, the cancel word
  "відміна" in any letter case and the `/cancel` command (module
  `Registration`; update kinds and message filters in `Updates`; Python
  `strip`, `lower` and `split` in `Text`).
- **The admin conversation** (`admin`, `admin_callback`, `admin_set_date`,
  `admin_set_time`, `admin_set_location`, `admin_broadcast_message`,
  `admin_cancel`): the allow-list, the date → time → location edit that
  saves after the last step, and the broadcast loop that counts the sends
  that succeed (module `Admin`).
- **The user registry** (`load_users`, `add_user`): users.txt with one chat
  id per line, append-if-absent, backed up remotely (module `Users`; Python
  `int()` and `str()` on integers in `Numerals`).
- **The settings store** (`load_settings`, `save_settings`): event date,
  time and location in memory, in settings.json and in its remote copy,
  merged per key on load (module `Settings`).
- **The registration recorder** (`store_registration`): the spreadsheet as a
  map from worksheet name to rows, the worksheet named after the event date
  and created with a header row (module `Sheets`).
- **The weekday helper** (`get_weekday`): "dd.mm" placed in the current
  year, rolled to next year when already past, named by its weekday, with
  "невідомий день" for anything that is not a date; the proleptic Gregorian
  calendar by day counts (module `Calendar`).

The imperative parts keep their form: the registration session, the admin
session, the settings store, the user registry and the workbook are
classes whose methods update their fields and are proved against the
transition functions; the broadcast loop is a `while` loop proved against a
specification function.

Modelling choices:

- The wall clock is the parameter `now`; every file, Drive and spreadsheet
  operation that may fail is a boolean parameter (`downloadOk`, `writeOk`,
  `uploadOk`, `serviceOk`), and a failure has no effect on the store, as the
  code catches and logs the exception. Whether a chat can be messaged is the
  parameter `reachable`.
- Conversation END and "no conversation" are the same state (`End`, `Idle`).
- `user_data` is not cleared when a registration ends or is cancelled:
  `cancel` returns END and leaves it as it is (bot.py:384-386).
- `load_settings` never creates a settings file when none exists; it only
  reads one that is there (bot.py:139-154).
- `/cancel` in the middle of an admin edit keeps the date (and time)
  already typed in memory, unsaved (bot.py:411-421, 446-448).
- The registration's `^Відміна$` regex handlers (bot.py:462-474) are never
  reached: the plain-text handler listed before them in each state accepts
  every such message first, and the state's own cancel check handles it
  (`Updates.CancelWordIsPlainText`).
- `datetime(year, month, day)` raises OverflowError, not ValueError, when
  the day or month does not fit a C `int`; `get_weekday` does not catch it,
  so the model returns `RaisesOverflow` in that case.
- Python's `int()` on a string of more than 4300 digits raises ValueError
  (the interpreter's integer string conversion limit). The model's
  `Numerals.ParseInt` fails on such a string, so `get_weekday` answers
  "невідомий день" for it, and the round trip `int(str(n)) == n` is proved
  for integers of at most 4300 digits.

## Model

| member | source | states |
|---|---|---|
| Text.Strip | bot.py:334 | `str.strip()`: the result is no longer than the input and neither starts nor ends with whitespace |
| Text.StripEmpty | bot.py:334 | a text strips to the empty string exactly when it is all whitespace |
| Text.TrimLeftSuffix | bot.py:334 | `lstrip()` keeps a suffix of its argument |
| Text.TrimRightPrefix | bot.py:334 | `rstrip()` keeps a prefix of its argument |
| Text.StripPadded | bot.py:365 | stripping removes any whitespace around a word that starts and ends with non-space characters |
| Text.LowerEach | bot.py:335 | the model's `lower()`: same length, each character lower-cased on its own |
| Text.Lower | bot.py:335 | the model's `str.lower()`, character by character (its length and per-character effect are stated by `Text.LowerEach`) |
| Text.IsCancel | bot.py:318 | `text.strip().lower() == "відміна"` (recognition stated by `Text.CancelAnyCaseAndPadding`) |
| Text.CancelAnyCaseAndPadding | bot.py:318 | a word that lower-cases to "відміна", with any whitespace around it, is recognised as the cancel word |
| Text.Split | bot.py:225 | `str.split('.')`: at least one part, and no part contains the separator |
| Text.JoinSplit | bot.py:225 | joining the parts of a split with the separator gives back the text |
| Text.SplitAtSeparator | bot.py:225 | the first separator ends the first part; the rest splits on its own |
| Text.SplitNoSeparator | bot.py:225 | text without the separator is one part |
| Numerals.NatToString | bot.py:195 | `str(n)` for n ≥ 0: non-empty decimal digits without a leading zero whose value is n |
| Numerals.IntToString | bot.py:195 | `str(n)`: non-empty, with no whitespace at either end |
| Numerals.ParseInt | bot.py:437 | `int(s)`: optional surrounding whitespace (ASCII tab to carriage return, space, and the non-ASCII `isspace` characters, but not U+001C to U+001F), an optional sign and 1 to 4300 decimal digits; anything else raises ValueError (None) |
| Numerals.SeparatorNotSkipped | bot.py:437 | a text opening with one of U+001C to U+001F, which `str.strip()` would remove, is rejected by `int()` |
| Numerals.ParseIntRoundTrip | bot.py:437 | `int(str(n)) == n` for every integer of at most 4300 digits |
| Numerals.NatToStringLength | bot.py:437 | a number below 10^k is written with at most k digits, so such ids stay within `int()`'s digit limit |
| Numerals.IntToStringInjective | bot.py:195 | distinct ids are written as distinct lines |
| Numerals.ParseDigits | bot.py:225 | `int()` of a bare run of digits is its decimal value |
| PhoneNumber.KeepPhoneChars | bot.py:337 | `re.sub(r"[^\d+]", "", s)` leaves only digits and '+', and never lengthens the text |
| PhoneNumber.KeepPhoneCharsConcat | bot.py:337 | the filter works piece by piece: filtering `a + b` is filtering `a` then `b` |
| PhoneNumber.KeepPhoneCharsIdentity | bot.py:337 | text of digits and '+' passes the filter unchanged |
| PhoneNumber.Normalize | bot.py:337-339 | the cleaned phone starts with '+' and holds only digits and '+' |
| PhoneNumber.NormalizeIdempotent | bot.py:337-339 | cleaning a cleaned phone changes nothing |
| PhoneNumber.CheckPhone | bot.py:337-344 | an accepted phone is the cleaned input and satisfies the check (length 13, `+380` prefix, digits after the '+') |
| PhoneNumber.CheckPhoneAcceptsExactly | bot.py:341 | accepted exactly when the digits and pluses of the input spell "380" or "+380" followed by nine digits |
| PhoneNumber.AcceptedPhoneShape | bot.py:341-344 | every stored phone is "+380" and nine digits |
| PhoneNumber.SeparatorsIgnored | bot.py:337 | inserting spaces, brackets, dashes or other separators changes neither the cleaned phone nor the verdict |
| PhoneNumber.NationalNumberAccepted | bot.py:337-344 | nine digits after "380" (contact card form) or "+380" (typed form) are accepted and stored as "+380" and the digits |
| Calendar.Weekday | bot.py:249 | `date.weekday()` is in 0..6 |
| Calendar.DaysBeforeNextYear | bot.py:232 | a year has 365 days, 366 in a leap year |
| Calendar.OrdinalNextDay | bot.py:249 | the day count agrees with the calendar: the next day is one later |
| Calendar.WeekdayNextDay | bot.py:249 | weekdays advance by one each day, Sunday wrapping to Monday |
| Calendar.OrdinalNextYear | bot.py:237 | the same day and month a year later is 365 or 366 days later |
| Calendar.WeekdayNextYearDiffers | bot.py:237 | the same day and month a year later falls on another weekday |
| Calendar.ParseDayMonth | bot.py:225 | `map(int, date_str.split('.'))` unpacked into two values; None where that raises ValueError |
| Calendar.MidnightBefore | bot.py:232-235 | midnight of the event day is earlier than the current instant (the comparison as written) |
| Calendar.RollForward | bot.py:235-239 | a past date moves to next year unless next year has no such date |
| Calendar.NameDay | bot.py:229-249 | the answer for a parsed event day: the weekday name of the rolled date, the sentinel, or the escaping OverflowError |
| Calendar.GetWeekdayAsWritten | bot.py:223-249 | `get_weekday` as written (stated by `Calendar.UnknownDayExactly`, `Calendar.UpcomingDateKeepsYear`, `Calendar.PastDateRollsToNextYear` and `Calendar.EventDayRollsAsWritten`) |
| Calendar.GetWeekday | bot.py:223-249 | `get_weekday` comparing calendar dates (stated by `Calendar.UnknownDayExactly`, `Calendar.UpcomingDateKeepsYear`, `Calendar.PastDateRollsToNextYear` and `Calendar.NamedDateNotPast`) |
| Calendar.ParseEventDay | bot.py:225-234 | a parsed event day is a valid date of the current year |
| Calendar.DefaultDateParses | bot.py:67 | the default event date "18.02" reads as day 18, month 2 |
| Calendar.NameDayUnknownExactly | bot.py:240-249 | "невідомий день" comes back exactly for unparsable or invalid dates (a part of more than 4300 digits is unparsable: `int()` raises ValueError), and the helper raises exactly on C-int overflow |
| Calendar.UnknownDayExactly | bot.py:223-234 | for `get_weekday` as written and for the date-comparing version alike: the sentinel is returned exactly when the text is not two integers of at most 4300 digits joined by '.' or names no day of the current year; an exception escapes exactly when a part overflows a C int |
| Calendar.SeparatorPaddedDateUnknown | bot.py:225-228 | a date text opening with one of U+001C to U+001F is not parsed, and both versions of the helper return "невідомий день" |
| Calendar.PastDateRollsToNextYear | bot.py:235-239 | a date already gone this year is named by next year's weekday, unless next year has no such date |
| Calendar.NamedDateNotPast | bot.py:235-239 | the named date is never before today, except 29 February after it passed in a leap year; a date not before today is named as it is, never rolled |
| Calendar.UpcomingDateKeepsYear | bot.py:235-249 | a date of this year still to come is named by its own weekday: as written while its midnight has not passed, comparing dates while it is not before today (the event day included) |
| Calendar.EventDayRollsAsWritten | bot.py:235 | as written, on the event day after midnight the helper names next year's weekday, which always differs from today's |
| Calendar.EventDayExample | bot.py:235-249 | for "18.02" on 18 February 2025 at 10:00 the code names "Середа"; comparing dates names "Вівторок" |
| Settings.ToJson | bot.py:157-161 | the saved object has exactly the keys event_date, event_time, event_location |
| Settings.Merged | bot.py:148-150 | each key of the loaded object wins; a missing key keeps the current value (stated by `Settings.SaveLoadRoundTrip`, `MergeWithoutKeys`, `MergeTwice`) |
| Settings.SaveLoadRoundTrip | bot.py:148-164 | loading what was saved yields exactly the saved settings, whatever was in memory |
| Settings.MergeWithoutKeys | bot.py:148-150 | an object without the three keys leaves the settings unchanged |
| Settings.MergeTwice | bot.py:148-150 | loading one object then another equals loading their union, later keys winning |
| Settings.SettingsStore.constructor | bot.py:67-69 | before any load the settings are the defaults "18.02", "20:00", "Club XYZ" |
| Settings.SettingsStore.LoadSettings | bot.py:139-154 | without a local file the remote copy is fetched; a readable object is merged per key; a malformed file or no file leaves the settings; no file is created |
| Settings.SettingsStore.SaveSettings | bot.py:156-168 | the whole settings object overwrites the local file and then the remote copy; failures leave the files as they were |
| Settings.RestartAfterSave | bot.py:139-168 | a restart after a successful save loads exactly the saved settings; with no file anywhere it keeps the defaults |
| Users.Appended | bot.py:195-197 | append the id when it is absent (stated by the `Users.Appended*` lemmas) |
| Users.AddAll | bot.py:188-199 | the lines after a sequence of `add_user` calls (stated by `Users.AddAllGrows`) |
| Users.AppendedKeepsLines | bot.py:195-197 | adding keeps every line in place, makes the id present and adds at most one line |
| Users.AppendedIdempotent | bot.py:195-197 | adding the same id twice equals adding it once |
| Users.AppendedOnce | bot.py:195-197 | an id added twice appears exactly once |
| Users.AppendedNoDuplicates | bot.py:195-197 | adding never creates a repeated id |
| Users.AddAllGrows | bot.py:188-199 | any sequence of adds keeps the old lines as a prefix, repeats no id and leaves every added id present |
| Users.UserRegistry.LoadUsers | bot.py:171-185 | without a local file the remote copy is fetched; the lines of the file, or none without a file |
| Users.AddUserAsWritten | bot.py:188-201 | `add_user`'s effect on the local file and the remote copy: load, append `str(id)` when absent and the write works, upload over the remote copy |
| Users.RemoteOverwrittenAsWritten | bot.py:188-199 | as written, with no local file and a failed fetch, the remote list is replaced by the new id alone |
| Users.AddUserGuarded | bot.py:188-201 | `add_user` that adds nothing when the remote list exists but could not be fetched |
| Users.GuardedKeepsRemote | bot.py:188-201 | with the guard, a remote list in step with the local file keeps every line and only grows |
| Users.UserRegistry.AddUser | bot.py:188-201 | the files after the call are those of `Users.AddUserAsWritten`: after loading, `str(id)` is appended when absent and uploaded; a present id or a failed write adds nothing |
| Sheets.RowOf | bot.py:213-218 | the data row has the header's four columns |
| Sheets.Recorded | bot.py:207-218 | recording touches only the event date's worksheet and creates it if missing |
| Sheets.RecordAll | bot.py:207-218 | the workbook after a sequence of registrations for the same date (stated by `Sheets.RecordAllRows`, `RecordAllOthers`) |
| Sheets.RecordAllRows | bot.py:207-218 | a new worksheet holds the header once followed by all rows in order; an existing one only gains the rows |
| Sheets.RecordAllOthers | bot.py:207-218 | other worksheets are never created, removed or changed |
| Sheets.Workbook.StoreRegistration | bot.py:203-220 | the row is appended to the event date's worksheet, created with the header first; a service failure records nothing |
| Updates.IsCommand | bot.py:461 | `Filters.command`: the text opens with a bot command entity: '/', a name of 1 to 64 command characters, an optional `@username`, and then the end of the text or a character that does not break the entity |
| Updates.IsPlainText | bot.py:461 | `Filters.text & ~Filters.command` |
| Updates.IsCancelCommand | bot.py:477 | `CommandHandler("cancel")`: the command word is "cancel" in any case, not addressed with '@' (stated by `Updates.CancelCommandAccepted`, `AddressedCommandRefused`) |
| Updates.CommandChars | bot.py:477 | the command name is the longest prefix of command characters |
| Updates.CancelCommandAccepted | bot.py:477 | `/cancel` in any letter case, alone or followed by a character that neither extends the name, addresses it with '@' nor breaks the entity, is the cancel command |
| Updates.BrokenCommandIsText | bot.py:461 | a name followed by '/', '<', '>' or a Cyrillic letter is no command, so "/r/Kyiv" or "/cancel/" goes to the text handler |
| Updates.LongNameIsText | bot.py:461 | a command name longer than 64 characters is no command |
| Updates.AddressedCommandRefused | bot.py:477 | a command addressed with `@` to some bot is never taken as `/cancel`, since the bot's own username is not known to the model |
| Updates.CancelWordIsPlainText | bot.py:461-462 | the cancel word is never a command, so the plain-text handler takes it before the regex handler |
| Registration.InvitationStep | bot.py:282-301 | `invitation_response`: "yes" asks for the name, "no" ends |
| Registration.NameStep | bot.py:316-328 | `get_name`: the cancel word cancels, anything else is stored as the name |
| Registration.PhoneStep | bot.py:330-336 | `get_phone`: a contact's number is checked as is; typed text may cancel and is stripped before the check |
| Registration.PhoneChecked | bot.py:337-347 | a phone that passes the check is stored cleaned and the handle is asked for; otherwise the phone is asked again |
| Registration.UsernameStep | bot.py:349-362 | `get_username`: a stripped handle starting with '@' is stored; otherwise asked again |
| Registration.SourceStep | bot.py:364-369 | `get_source`: the stripped source completes the record, which is handed to the recorder, and the conversation ends |
| Registration.Cancelled | bot.py:384-386 | `cancel`: the conversation ends, `user_data` is left as it is, nothing is stored |
| Registration.Next | bot.py:457-478 | the conversation handler's table: entry, each state's text (or contact) handler, the `/cancel` fallback, otherwise no change |
| Registration.Run | bot.py:457-478 | the conversation after a sequence of updates and the records stored on the way (stated by `Registration.RunStoresCompleteRecords`) |
| Registration.NextKeepsCollected | bot.py:457-478 | each update keeps the fields collected for the current state, and only complete records are stored |
| Registration.RunStoresCompleteRecords | bot.py:364-369 | over any sequence of updates every stored record has a name, a valid phone, a handle and a source |
| Registration.StoresOnlyFromSource | bot.py:364-369 | a record is stored only by a non-cancelling text in the source step, which ends the conversation with the stripped source added |
| Registration.CancelFromAnyStep | bot.py:316-367 | the cancel word in any case and padding, or `/cancel`, ends the conversation from every step, stores nothing and leaves `user_data` as it is |
| Registration.CancelWordIsNoPhone | bot.py:334-341 | the cancel word is never accepted as a phone |
| Registration.PhoneStepAcceptsExactly | bot.py:330-347 | a typed phone moves to Username exactly when it passes the check, storing the cleaned phone; otherwise Phone stays (or cancel) with `user_data` unchanged |
| Registration.ContactStepAcceptsExactly | bot.py:331-332 | a shared contact's number goes through the same check and never cancels |
| Registration.UsernameStepAcceptsExactly | bot.py:349-362 | a handle moves to Source exactly when its stripped form starts with '@', storing the stripped form; otherwise Username stays (or cancel) with nothing stored |
| Registration.HandleIsNoCancel | bot.py:350-353 | a handle starting with '@' is never the cancel word |
| Registration.YesStepTaken | bot.py:290-292 | "yes" on the invitation starts the conversation at the name step |
| Registration.NameStepTaken | bot.py:316-328 | a name that is not the cancel word is stored as typed and the phone is asked for |
| Registration.PhoneStepTaken | bot.py:330-347 | a valid phone is stored cleaned and the handle is asked for |
| Registration.HandleStepTaken | bot.py:349-362 | a valid handle is stored stripped and the source is asked for |
| Registration.SourceStepTaken | bot.py:364-369 | the stripped source completes the record, which is stored once, and the conversation ends |
| Registration.CompletedRegistration | bot.py:282-382 | "yes", a name, a valid phone, a handle and a source end the conversation with exactly one record stored: the name, the cleaned phone, the stripped handle and source |
| Registration.Session.InvitationResponse | bot.py:282-301 | "yes" moves to the name step, "no" ends |
| Registration.Session.Cancel | bot.py:384-386 | ends the conversation, `user_data` untouched |
| Registration.Session.GetName | bot.py:316-328 | updates state and `user_data` as the name step prescribes |
| Registration.Session.GetPhone | bot.py:330-347 | updates state and `user_data` as the phone step prescribes |
| Registration.Session.GetUsername | bot.py:349-362 | updates state and `user_data` as the handle step prescribes |
| Registration.Session.GetSource | bot.py:364-382 | updates state and `user_data` as the source step prescribes and records the row in the event date's worksheet |
| Registration.Session.Handle | bot.py:457-478 | dispatches an update through the transition table and records exactly what the table stores |
| Admin.StepWith | bot.py:480-489 | the admin conversation handler's table, with entry allowed or not |
| Admin.NextAsWritten | bot.py:401-409 | the table as written: any sender pressing a panel button enters |
| Admin.Next | bot.py:389-409 | the table with the allow-list also checked on entry |
| Admin.Apply | bot.py:411-425 | each `admin_set_*` overwrites its one setting |
| Admin.Saves | bot.py:423-426 | how many times `save_settings` runs along the actions |
| Admin.GateOnlyOnEntry | bot.py:401-409 | the allow-list check on entry changes nothing for admins, nor for a conversation already under way |
| Admin.EntryNeedsPanel | bot.py:389-409 | with the gate, the conversation starts exactly for an admin pressing "admin_change" or "admin_broadcast" |
| Admin.NonAdminEditsAsWritten | bot.py:401-428 | as written, a sender refused the panel can still press "admin_change" and rewrite and save the settings |
| Admin.NonAdminNeverEnters | bot.py:389-393 | with the gate, no sequence of updates from a non-admin starts the conversation or changes anything |
| Admin.AdminEdit | bot.py:411-428 | an admin's "admin_change", date, time and location set all three settings as typed, save exactly once, and end |
| Admin.EditEffects | bot.py:411-428 | the three edits replace the whole settings and save once |
| Admin.SaveOnlyAfterLocation | bot.py:423-428 | the settings are saved exactly by the location text in the location step, which ends the conversation |
| Admin.CancelFromAnyAdminStep | bot.py:446-448 | `/cancel` ends the admin conversation from every state with no action |
| Admin.CancelAfterDate | bot.py:411-448 | `/cancel` after the date keeps the new date in memory and never saves |
| Admin.AdminBroadcast | bot.py:404-409 | "admin_broadcast" then a text hands that text, as typed, to the broadcast and ends |
| Admin.SendSucceeds | bot.py:436-438 | `send_message(chat_id=int(uid))` succeeds: the line parses as an integer naming a reachable chat |
| Admin.Delivered | bot.py:434-440 | the chats reached, in the order of the lines (stated by the `Admin.Delivered*` lemmas) |
| Admin.Failed | bot.py:439-440 | the lines whose send fails (stated by `Admin.DeliveredOrFailed`) |
| Admin.DeliveredReachable | bot.py:435-440 | at most one send per line, and only to reachable chats |
| Admin.DeliveredConcat | bot.py:435-440 | a failed send never stops the loop: the later lines are sent to all the same |
| Admin.DeliveredOrFailed | bot.py:433-441 | every line is either sent or counted as a failure |
| Admin.DeliveredContains | bot.py:435-438 | a line whose send succeeds puts its chat among those reached |
| Admin.RegisteredReachableReceive | bot.py:188-199 | every registered chat that can be reached receives the broadcast |
| Admin.SendAll | bot.py:434-441 | the loop's count is the number of successful sends, and the chats reached are the specified ones |
| Admin.Broadcast | bot.py:430-444 | no users gives the "no users" reply; otherwise the reported count plus the failures is the number of lines |
| Admin.AdminSession.Handle | bot.py:401-448 | moves the conversation by the table as written (any sender pressing a panel button enters), applies the edit to the in-memory settings, saves only after the location, and runs the broadcast over the loaded users |

## Left out

- Google Drive download and upload (bot.py:74-136): foreign API calls; each is a boolean success parameter, and a failure leaves the store as it was.
- gspread (bot.py:205-211): only the worksheet → rows map is modelled, with a success parameter for the whole call.
- The Flask webhook, the health check, the dispatcher wiring and `main` (bot.py:454-530): transport plumbing.
- Keyboards, buttons, reply texts, `get_invitation_message`, `back_handler`, `start` and `starts` (bot.py:251-314, 370-381): user interface; the registry operation they call, `add_user`, is modelled.
- The credentials bootstrap, `sys.exit` and logging (bot.py:40-54): process configuration.
- Per-chat keying of sessions and the interplay of the two conversations and the command handlers placed before them in the dispatcher: each session is modelled for one chat on its own.
- Text.IsDigit: only ASCII digits; Python's `\d`, `isdigit()` and `int()` also accept other Unicode decimal digits.
- Text.LowerChar: only the ASCII capitals, U+0400 to U+042F and Ґ are lower-cased; every other character, including the other Cyrillic capitals, is left as it is, and no character lower-cases to more than one (Python's `'İ'.lower()` has two).
- Numerals.ParseInt: `int()` also accepts underscores between digits and non-ASCII decimal digits; not modelled.
- Updates.IsCommand: of the letters and digits outside ASCII that keep a command from being marked when they follow its name, only the Cyrillic letters are modelled; the length limits Telegram puts on the `@username` part are not modelled.
- Updates.IsCancelCommand: the bot's own username is not modelled, so `/cancel@<its username>`, which the command handler accepts, is refused like any other command addressed with '@'.
- Settings.SettingsFile: JSON values other than strings are not modelled; a settings object is a map from strings to strings.
- Users.UserRegistry.AddUser: a users file whose last line lacks a newline would have the new id glued to it; the model treats the file as a list of lines.
- Partial failures (a download that leaves half a file, a sheet created but the row not appended): each I/O step either fully succeeds or has no effect.

## Findings

| source | as written | input that shows it | evidently intended | confidence | as-written member | corrected member |
|---|---|---|---|---|---|---|
| bot.py:235 | `event_date_obj < now` compares midnight of the event day with the current instant, so on the event day itself the date counts as past and the weekday of next year's date is named | event date "18.02", now 18 February 2025 10:00: names "Середа" (18 February 2026) instead of "Вівторок" | the event day counts as upcoming until it is over, so the invitation names today's weekday | medium, not executed | Calendar.EventDayExample | Calendar.UpcomingDateKeepsYear |
| bot.py:401-409 | `admin_callback` starts the admin conversation for whoever presses "admin_change" or "admin_broadcast"; only the `/admin` command checks `ADMIN_IDS` | sender 42 (not an admin) presses "admin_change" on a panel message, then sends a date, a time and a location: the settings are rewritten and saved | only ids on the allow-list enter the admin conversation | low, not executed | Admin.NonAdminEditsAsWritten | Admin.NonAdminNeverEnters |
| bot.py:188-199 | with no local users.txt and a failed fetch of the remote copy, `add_user` creates a file holding only the new id and uploads it over the remote copy | a remote users.txt with ids 1 and 2, no local file, the fetch fails, user 3 registers: the remote copy becomes "3" alone | a failed fetch never costs the registered ids | medium, not executed | Users.RemoteOverwrittenAsWritten | Users.GuardedKeepsRemote |
