# spravka_bot conversation model

A Dafny model of the conversation in `bot.py` of the spravka_bot Telegram bot.
The bot collects a certificate request in one conversation per user, field by field:

- full name (FIO);
- birth date;
- tax number (INN);
- delivery method;
- e-mail, when that delivery was chosen;
- one receipts message, a photo or text.

It then sends a summary of the request to an administrator chat.

The Telegram side is left out. One inbound message is one pure `Conversation.Step`. It maps a session to:

- the next session, which is a state and the per-user data map;
- the ordered list of effects the handlers perform: replies, the summary, forwarded photos and notes to the administrator.

## Modules

| file | module | contents |
|---|---|---|
| `wrappers.dfy` | `Wrappers` | `Option` and `Result` |
| `text.dfy` | `Text` | Python's `str.strip()`, using Python's white-space set, and a reference definition of stripping |
| `calendar.dfy` | `Calendar` | proleptic Gregorian month lengths and leap years |
| `dateformat.dfy` | `DateFormat` | `datetime.strptime(text, "%d.%m.%Y")` as CPython's format regex plus its range checks, with the reason for each rejection |
| `summary.dfy` | `Summary` | the data map, its keys, and the summary fields `receipts` reads |
| `conversation.dfy` | `Conversation` | states, events and effects; the eight handlers; the `ConversationHandler` dispatch (`Step`) and its fold over a message sequence (`Run`) |
| `properties.dfy` | `ConversationProperties` | the invariant of reachable sessions, and the behaviour of each state |

## Dispatch

The handler is built with `ConversationHandler(entry_points=[/start], states=…, fallbacks=[/cancel])` and default options. Its dispatch is modelled as follows:

- Outside a conversation only `/start` is heard. `ConversationHandler.END` removes the conversation, so END and "never started" are one state, `Idle`.
- Inside a conversation, the state's only handler runs when its filter accepts the message. Otherwise the `/cancel` fallback runs, and otherwise nothing happens.
- `/start` is not re-entered while a conversation runs.
- The data map survives END and `/cancel`. Only `/start` clears it.
- In FIO to EMAIL the filter is `TEXT & ~COMMAND`. In RECEIPTS it is `TEXT | PHOTO`, so a command there, `/cancel` included, reaches `receipts` and is echoed to the administrator as the receipts text.
- If `receipts` raised `KeyError`, the state and data would stay unchanged with nothing sent. `ConversationProperties.ReachableSummaryBuilds` proves this cannot happen from the initial state for one user in one private chat, the setting modelled here.
- A message with empty text is neither `filters.TEXT` nor `filters.COMMAND`, so no handler takes it.

## What the code does not check

- The tax number, the e-mail and the delivery text are stored unchecked (bot.py:62, 76, 94); only the birth date is validated (bot.py:52).
- RECEIPTS ends on its first text or photo message (bot.py:99-133); there is no loop over several photos.
- The per-user data map is kept after the conversation ends (bot.py:133, 138); only `/start` clears it (bot.py:39).

## Model

| member | source | states |
|---|---|---|
| Conversation.Step | bot.py:145-156 | Every step follows an edge of the form's transition graph or stays put, and staying put leaves the data map unchanged. Leaving `Idle` happens only by `/start`, into FIO with an empty map. Returning to `Idle` from inside the form happens only by `/cancel` or in RECEIPTS. |
| Conversation.Forwards | bot.py:120-122 | One photo forward per entry of the message's photo, in order. |
| Conversation.IsText | bot.py:148-153 | `filters.TEXT`: a non-empty text. No contract of its own; `ConversationProperties.EmptyTextIgnored` and `FormIgnoresNonText` pin down what it admits. |
| Conversation.IsPhoto | bot.py:153 | `filters.PHOTO`: a non-empty list of photo sizes. No contract of its own; `ConversationProperties.ReceiptsIgnoresOthers` and `PhotoForwarded` pin it down. |
| Conversation.Accepts | bot.py:148-153 | `TEXT` or `PHOTO` in RECEIPTS and `TEXT & ~COMMAND` in the other states. No contract of its own; `ConversationProperties.NoRestartInForm`, `FormIgnoresNonText` and `CancelInReceiptsSendsSummary` pin it down. |
| Conversation.HandleReceipts | bot.py:99-133 | With a missing field (`KeyError`) the session is unchanged and nothing is sent. Otherwise the effects are the summary of the stored fields, then the relay, then the thanks, and the conversation ends with the data map kept. |
| Conversation.HandleStart | bot.py:37-41 | `start`: clears the data map, asks for the full name and enters FIO. No contract of its own; `ConversationProperties.IdleHearsOnlyStart` and the entry clause of `Step` pin it down. |
| Conversation.HandleFio | bot.py:44-47 | `fio`: stores the stripped text as the full name and enters BIRTHDATE. No contract of its own; `ConversationProperties.FioAdvances` and `FioKeepsInv` pin it down. |
| Conversation.HandleBirthdate | bot.py:50-58 | `birthdate`: stores the text verbatim and enters INN exactly when `strptime` accepts it, else sends the format hint and stays. No contract of its own; `ConversationProperties.BirthdateStep` and `BirthdateKeepsInv` pin it down. |
| Conversation.HandleInn | bot.py:61-72 | `inn`: stores the stripped text unchecked, offers the delivery keyboard and enters DELIVERY. No contract of its own; `ConversationProperties.InnAdvances` and `InnKeepsInv` pin it down. |
| Conversation.HandleDelivery | bot.py:75-90 | `delivery`: stores the text verbatim; the e-mail option enters EMAIL, anything else stores the placeholder e-mail and enters RECEIPTS. No contract of its own; `ConversationProperties.DeliveryBranch` and `DeliveryKeepsInv` pin it down. |
| Conversation.HandleEmail | bot.py:93-96 | `email`: stores the stripped text unchecked and enters RECEIPTS. No contract of its own; `ConversationProperties.EmailAdvances` and `EmailKeepsInv` pin it down. |
| Conversation.HandleCancel | bot.py:136-138 | `cancel`: ends the conversation with the data map kept and one reply. No contract of its own; `ConversationProperties.CancelInForm` pins it down. |
| Conversation.Relay | bot.py:120-128 | What `receipts` sends after the summary: the photo forwards and the photo note, or the text echoed. No contract of its own; `Conversation.HandleReceipts` and `ConversationProperties.PhotoForwarded` pin it down. |
| Conversation.IsCommand | bot.py:148-152 | `filters.COMMAND`: a non-empty text starting with a bot command. No contract of its own; `ConversationProperties.NoRestartInForm` pins down that `~COMMAND` keeps commands out of the form handlers. |
| Conversation.IsCommandFor | bot.py:146 | `CommandHandler("start")` and `CommandHandler("cancel")`: a command message for that command. No contract of its own; `ConversationProperties.IdleHearsOnlyStart`, `CancelInForm` and the entry and exit clauses of `Step` pin it down. |
| Conversation.Run | bot.py:145-156 | One user's messages handled in order, effects concatenated. No contract of its own; `ConversationProperties.RunPreservesInv`, `ReachableIsConsistent` and `PaperRequestExample` pin it down. |
| Text.Strip | bot.py:45 | `str.strip()`: the result has no white space at either end and is no longer than the text; `StripMeetsReference` and `StripIsTheStripOf` tie it to the reference definition. |
| Text.StripIsTheStripOf | bot.py:45 | Stripping as computed equals the reference definition: the unique slice with white space outside it and none at its ends. |
| Text.StripOfUnique | bot.py:62 | The reference definition of stripping determines at most one result. |
| Text.StripMeetsReference | bot.py:94 | The computed strip meets the reference definition. |
| Text.StripIdempotent | bot.py:45 | Stripping a stripped value changes nothing. |
| Text.StripFixesStripped | bot.py:62 | A text with no white space at either end is stored as received. |
| Text.TrimStartDropsPrefix | bot.py:45 | The left trim removes exactly a white-space prefix. |
| Text.TrimEndDropsSuffix | bot.py:45 | The right trim removes exactly a white-space suffix. |
| Calendar.DaysInMonth | bot.py:52 | Month lengths: 29 exactly for February of a leap year, 30 exactly for April, June, September and November, 28 exactly for February of a common year. |
| Calendar.YearLength | bot.py:52 | The month table adds up to 366 days in a leap year and 365 otherwise. |
| Calendar.LeapDay | bot.py:52 | February 29 is a valid date exactly in leap years. |
| DateFormat.FindDot | bot.py:52 | Finds the first dot at or after a position, or reports that there is none. |
| DateFormat.ParseDate | bot.py:52 | An accepted text spells its date in the `%d.%m.%Y` tokens, and the date is a real date with year at least 1. |
| DateFormat.ParseDateComplete | bot.py:52 | Every text that spells a real date in those tokens is accepted as that date. |
| DateFormat.IsValidBirthdate | bot.py:51-53 | The birth-date check: `strptime` does not raise. No contract of its own; `BirthdateAcceptance` states it without the parser. |
| DateFormat.BirthdateAcceptance | bot.py:51-58 | The birth-date check succeeds if and only if the text spells a real date. |
| DateFormat.SplitIsFirstDots | bot.py:52 | The day/month/year split of a matching text is at its first two dots. |
| DateFormat.ParseSplit | bot.py:52 | A text of the right shape is rejected only for year 0000 or for a day past the end of its month. |
| DateFormat.FormatThenParse | bot.py:57 | Every real date, written zero-padded as in the format hint, is accepted as itself. |
| DateFormat.LeapCenturyExample | bot.py:52 | `29.02.2000` is accepted. |
| DateFormat.CommonCenturyExample | bot.py:52 | `29.02.1900` is rejected because the day is out of range. |
| DateFormat.ShortMonthExample | bot.py:52 | `31.04.2001` is rejected because the day is out of range. |
| DateFormat.YearZeroExample | bot.py:52 | `01.01.0000` is rejected because the year is out of range. |
| DateFormat.SingleDigitExample | bot.py:52 | `1.1.2000` is accepted, since one-digit days and months match. |
| DateFormat.SpacedDayExample | bot.py:52 | ` 5.03.1990` is accepted; the `%d` directive allows a space before a one-digit day. |
| DateFormat.DashExample | bot.py:52 | `31-12-2000` does not match the format. |
| DateFormat.ZeroDayExample | bot.py:52 | A day `00` does not match the format. |
| DateFormat.ThirteenthMonthExample | bot.py:52 | A month `13` does not match the format. |
| DateFormat.ShortYearExample | bot.py:52 | A two-digit year does not match the format. |
| DateFormat.TrailingDigitExample | bot.py:52 | A fifth year digit is rejected as unconverted data. |
| ConversationProperties.InitConsistent | bot.py:34 | The initial session is consistent. |
| ConversationProperties.StoreKeepsValues | bot.py:45-94 | Storing a valid birth date, or a stripped name, tax number or e-mail, keeps every stored value well-formed. |
| ConversationProperties.FioKeepsInv | bot.py:44-47 | `fio` keeps the session consistent. |
| ConversationProperties.BirthdateKeepsInv | bot.py:50-58 | `birthdate` keeps the session consistent. |
| ConversationProperties.InnKeepsInv | bot.py:61-72 | `inn` keeps the session consistent. |
| ConversationProperties.InnKeepsShape | bot.py:61-72 | `inn` adds the tax number to exactly the keys expected in DELIVERY. |
| ConversationProperties.DeliveryKeepsInv | bot.py:75-90 | `delivery` keeps the session consistent on both branches. |
| ConversationProperties.EmailKeepsInv | bot.py:93-96 | `email` keeps the session consistent. |
| ConversationProperties.EmailKeepsShape | bot.py:93-96 | Storing any e-mail in EMAIL gives exactly the keys expected in RECEIPTS, and keeps the delivery choice. |
| ConversationProperties.StepPreservesInv | bot.py:145-156 | Every message keeps a consistent session consistent. |
| ConversationProperties.RunPreservesInv | bot.py:145-156 | Every sequence of messages keeps a consistent session consistent. |
| ConversationProperties.ReachableIsConsistent | bot.py:45-94 | In every reachable session each form state holds exactly the fields asked before it. A stored birth date is one `strptime` accepts. The name, tax number and e-mail are stripped. The e-mail is the placeholder unless the e-mail delivery was chosen. |
| ConversationProperties.EnteringReceiptsHasAllFields | bot.py:103-109 | Every entry into RECEIPTS carries all five fields. |
| ConversationProperties.ReachableSummaryBuilds | bot.py:103-112 | In every reachable RECEIPTS session the summary lookups cannot raise. |
| ConversationProperties.IdleHearsOnlyStart | bot.py:37-41 | Outside a conversation, `/start` clears the data map and enters FIO with one prompt; every other message changes nothing. |
| ConversationProperties.NoRestartInForm | bot.py:146-152 | `/start` inside the form changes nothing. |
| ConversationProperties.FioAdvances | bot.py:44-47 | Any non-empty text in FIO advances to BIRTHDATE and stores the stripped name. |
| ConversationProperties.InnAdvances | bot.py:61-72 | Any non-empty text in INN advances to DELIVERY and stores the stripped tax number unchecked. |
| ConversationProperties.EmailAdvances | bot.py:93-96 | Any non-empty text in EMAIL advances to RECEIPTS and stores the stripped address unchecked. |
| ConversationProperties.BirthdateStep | bot.py:50-58 | BIRTHDATE advances if and only if `strptime` accepts the text, then stores it verbatim. Otherwise only the format hint is sent, and state and data stay. |
| ConversationProperties.OnlyBirthdateStays | bot.py:44-96 | Non-empty text keeps a form state in place if and only if it is a rejected birth date. |
| ConversationProperties.RepeatedInvalidDate | bot.py:50-58 | `31-12-2000` sent twice leaves the session in BIRTHDATE with no birth date stored. |
| ConversationProperties.DeliveryBranch | bot.py:75-90 | The delivery text is stored as received. Exactly the e-mail option leads to EMAIL, with no address yet. Any other text leads to RECEIPTS, with the placeholder as address. |
| ConversationProperties.EmptyTextIgnored | bot.py:148-155 | A message with empty text changes nothing in any state: it is not `filters.TEXT` and not `/cancel`. |
| ConversationProperties.FormIgnoresNonText | bot.py:148-152 | In the five form states, photos, other messages and commands other than `/cancel` change nothing. |
| ConversationProperties.SummaryCountAppend | bot.py:114-132 | Summaries in concatenated effect lists add up. |
| ConversationProperties.ForwardsHaveNoSummary | bot.py:120-122 | Photo forwards contain no summary. |
| ConversationProperties.CancelInForm | bot.py:136-138 | `/cancel` in a form state ends the conversation, keeps the data map and sends no summary. |
| ConversationProperties.ReceiptsIsTerminal | bot.py:99-133 | The first text or photo in RECEIPTS sends, in order: the summary of the stored fields, then the relay, then the thanks. The conversation then ends with the data map kept. |
| ConversationProperties.PhotoForwarded | bot.py:120-123 | A photo in RECEIPTS is forwarded entry by entry, after the summary and before the photo note and the thanks. |
| ConversationProperties.CancelInReceiptsSendsSummary | bot.py:153-155 | `/cancel` in RECEIPTS is taken as receipts text: the summary is sent and the command echoed. |
| ConversationProperties.ReceiptsIgnoresOthers | bot.py:153 | In RECEIPTS, messages that are neither text nor a photo change nothing. |
| ConversationProperties.SummaryExactlyOnCompletion | bot.py:99-138 | A step of a consistent session sends a summary exactly when it completes RECEIPTS, and then exactly one. |
| ConversationProperties.EdgesAreTaken | bot.py:145-156 | Every edge of the transition graph is taken by some message from every consistent session in its source state. |
| ConversationProperties.PaperFioStep | bot.py:45 | ` Ivan Petrov ` in FIO is stored as `Ivan Petrov`. |
| ConversationProperties.PaperBirthdateStep | bot.py:50-55 | `15.03.1990` in BIRTHDATE is stored and INN is asked. |
| ConversationProperties.PaperRequestReceiptsStep | bot.py:99-133 | A one-photo receipts message in the paper request sends a summary with the placeholder e-mail, then the forward, the note and the thanks. |
| ConversationProperties.PaperRequestExample | bot.py:37-133 | A whole paper request, `/start` through one receipts photo, yields the five prompts, one summary, one forward, the note and the thanks, and ends the conversation. |

## Left out

- Telegram I/O and async plumbing. Replies, messages to the administrator chat and photo forwards are effect values; delivery failures are not modelled.
- Reply wording and keyboard options. Prompts are abstract; only whether a reply keeps, offers or removes the reply keyboard is modelled. `resize_keyboard` and `one_time_keyboard` are not modelled.
- Configuration, the `BOT_TOKEN` check, `ADMIN_CHAT_ID` and logging (bot.py:19-31), and `main`'s polling (bot.py:142-161): process start-up only.
- The timestamp of the summary (bot.py:111): the clock is nondeterministic, and the summary is a record of its fields.
- Markdown parsing of the summary (bot.py:104-118). The summary carries user-entered fields with `parse_mode="Markdown"`, so a field with an unclosed entity, such as an e-mail `ivan_petrov@mail.ru` or a name with a single `*`, makes Telegram reject the message. `send_message` then raises before anything is sent, the conversation stays in RECEIPTS, and every later text, photo, `/start` or `/cancel` reaches `receipts` again (bot.py:153) and fails the same way, so the user cannot leave RECEIPTS. The model treats every send as successful.
- ConversationProperties.ReceiptsIsTerminal: holds only when the summary is accepted by Telegram (see the Markdown line above) and the update is a new message. An edited text in RECEIPTS also reaches `receipts`: the summary is sent (bot.py:114-118), then `update.message.photo` raises because `update.message` is None (bot.py:120), and the conversation stays in RECEIPTS.
- ConversationProperties.SummaryExactlyOnCompletion: holds only when the sends succeed and the update is a new message. A rejected summary leaves the conversation in RECEIPTS with nothing sent; an edited text in RECEIPTS sends a summary and then fails at bot.py:120, leaving the conversation in RECEIPTS, so the next message sends a second summary.
- Conversations in group chats. `user_data` is per user, but a conversation is keyed per chat and user, so a `/start` in a group clears the fields of a private conversation still waiting in RECEIPTS. The model is one user in one private chat.
- Per-user storage and concurrency. `context.user_data` and update dispatch belong to python-telegram-bot, so one user's session is a value passed in and out.
- How Telegram marks a command. An event is a command when its first entity is a bot command at offset 0; that parsing is taken as given.
- Edited messages, channel posts and other update kinds. Only new private messages are modelled; the consequence of an edited text in RECEIPTS is stated on the two lines above.
- DateFormat.ParseDate: digits are ASCII only, whereas CPython's `\d` also matches other Unicode decimal digits. Its `re.IGNORECASE` flag does not matter for digits and dots.
