# Mailing service: access rules, dispatch loop and tables, in Dafny

This project models the core of a Django e-mail campaign application. Accounts
manage clients, message templates and mailings. A mailing sends one message to
a set of clients. Every delivery try is logged as an Attempt row.

What is modelled:

- **Records** (`users.dfy`, `models.dfy`). Accounts carry a role (`user` or
  `manager`) and a blocked flag. Clients, messages, mailings and attempts have
  their status choices, defaults and `__str__` text forms. The labels of
  accounts and clients are paired with parsers and round-trip lemmas that give
  back what they show (for a client, provided its email has no '<'). A
  mailing's label gives back its status and the label of its message, which is
  the plain definition `str(Message)` = subject (`MessageLabel`).
- **Forms** (`forms.dfy`). Each model form is a datatype holding exactly the
  fields of its `fields` list. This makes the form the frame of the update that
  saves it. Validation covers required fields, `max_length`, the status choice,
  existing foreign keys, the unique client email and no start/end ordering.
- **Access rules and list narrowing** (`access.dfy`). These are pure predicates
  over the tables. Each list-view function is proved to hold exactly the records
  the matching update/delete check lets through. The home-page counters are
  proved to split into successes and failures.
- **The send loop** (`dispatch.dfy`). Specification functions describe one run:
  a letter per recipient, the transport's answer, and the Attempt and output line
  each answer yields.
- **The tables** (`database.dfy`). `Store` is a class holding one map per table,
  the attempts sequence and one auto-increment counter per table. Its invariant
  is referential integrity plus unique client emails. The cascades that the
  foreign keys declare are functions proved to keep that invariant.
- **The handlers** (`views.dfy`, `send_mailing.dfy`). These are methods on the
  store. Each has its 404/403/render/redirect branches. The `mailing_send` loop
  and the management command's loop are both `for` loops that append one Attempt
  per client. Both are proved to leave the tables equal to `Dispatched(...)`, and
  the lemmas about that function state what a send does.

Modelling choices:

- The mail transport is an oracle `Letter -> Delivery`. `Delivered` means
  `send_mail` returned. `Raised(e)` means it raised an exception whose `str()` is
  `e`. Within one run no two letters share a recipient address
  (`RecipientAddressesDistinct`). So a per-letter oracle can give every recipient
  its own outcome.
- The many-to-many `Mailing.clients` relation is a duplicate-free sequence. Its
  order stands for the order in which `mailing.clients.all()` returns the rows. After a form save the model fixes it to the submitted order (see `Forms.Dedup` under "## Left out").
- Date-times are opaque integers. Nothing does arithmetic on them.

Behaviour a reader might not expect; the model follows the code:

- Deleting a Message deletes every Mailing that uses it, through
  `on_delete=CASCADE` on `Mailing.message` (`DeleteMessage`). This includes
  mailings owned by other accounts.
- `status` is an ordinary form field. An update may set any of the three values,
  so there is no Created-to-Running-only rule (`MailingFormHasNoRules`). A mailing
  made through the form takes the submitted status. The default `'Создана'`
  applies only to a mailing created without one (`NewMailing`).
- The code has no per-mailing report. `home_view` gives three totals over the
  attempts of the requester's own mailings, and this holds for managers too.
- Nothing connects `is_blocked` to logging in. The login form checks `is_active`.

## Model

| member | source | states |
|---|---|---|
| `Users.ParseRole` | users/models.py:5-10 | exactly the stored values 'user' and 'manager' are roles, and each reads back to the value it came from |
| `Users.RoleValueRoundTrip` | users/models.py:5-8 | every role's stored value reads back as that role |
| `Users.NewAccount` | users/models.py:10-11 | a new account has role 'user' and is not blocked |
| `Users.AccountLabelRoundTrip` | users/models.py:13-14 | str(user) = username + " (" + role display + ")" gives back both the username and the role |
| `Users.AccountLabelInjective` | users/models.py:13-14 | two accounts with the same text form have the same username and role |
| `Models.ParseMailingStatus` | mailing_app/models.py:20-28 | a submitted status is accepted iff it is one of 'Создана', 'Запущена', 'Завершена', and it reads back to that text |
| `Models.StatusValueRoundTrip` | mailing_app/models.py:20-28 | each of the three statuses survives the trip through its stored text |
| `Models.NewMailing` | mailing_app/models.py:28-31 | a mailing created without status or is_active gets status 'Создана' and is_active True, with its other fields as given |
| `Models.ClientLabelRoundTrip` | mailing_app/models.py:4-10 | str(Client) = full_name + " <" + email + ">" gives back the name and the email whenever the email has no '<' |
| `Models.AttemptStatusValueInjective` | mailing_app/views.py:19-20 | the two stored attempt statuses the home counters filter on are different texts, so no attempt counts as both |
| `Models.MailingLabelShowsStatus` | mailing_app/models.py:33-34 | the text form "Рассылка: subject (status)" always tells the mailing's status |
| `Models.MailingLabelRoundTrip` | mailing_app/models.py:33-34 | the text form of a mailing gives back both its status and the text form of its message (str(Message), models.py:16-17), which is what sits between the prefix and the status |
| `Forms.ClientFormValid` | mailing_app/models.py:5-7 | a client form is valid iff the email is non-empty, at most 254 characters and not used by another client, and the full name is non-empty and at most 255 characters; the comment may be blank |
| `Forms.MessageFormValid` | mailing_app/models.py:13-14 | a message form is valid iff the subject is non-empty and at most 255 characters and the body is non-empty |
| `Forms.MailingFormValid` | mailing_app/forms.py:16-19 | a mailing form is valid iff its status is one of the three choices, its message exists, and it picks at least one client, each existing; nothing relates start and end |
| `Forms.Dedup` | mailing_app/forms.py:19 | the clients picked in a form form a duplicate-free relation holding exactly the picked ids |
| `Forms.ApplyMailingForm` | mailing_app/forms.py:16-19 | saving a MailingForm writes start_time, end_time, status, message and clients from the form and keeps owner and is_active |
| `Forms.MailingFormHasNoRules` | mailing_app/forms.py:16-24 | a valid form stays valid with any of the three statuses and any start/end pair, including end before start, and the saved status is the chosen one |
| `Access.CanManageMailing` | mailing_app/views.py:124 | update, delete and send of a mailing are allowed to its owner and to managers |
| `Access.CanManageClient` | mailing_app/views.py:45 | update and delete of a client are allowed to managers and to the owner of some mailing that includes the client |
| `Access.CanManageMessage` | mailing_app/views.py:83 | update and delete of a message are allowed to managers and to the owner of some mailing that uses the message |
| `Access.OwnedMailings` | mailing_app/views.py:15 | exactly the mailings whose owner is the given account |
| `Access.VisibleMailings` | mailing_app/views.py:103-107 | mailing_list shows exactly the mailings the actor may update, delete or send (owner or manager); a manager sees the whole table |
| `Access.VisibleClients` | mailing_app/views.py:27-31 | client_list shows exactly the existing clients that pass the client_update/delete check; a manager sees all |
| `Access.VisibleMessages` | mailing_app/views.py:65-69 | message_list shows exactly the existing messages that pass the message_update/delete check; a manager sees all |
| `Access.UserList` | mailing_app/views.py:182-187 | user_list answers iff the actor is a manager, and then lists every account; `Views.DeactivateMailing` and `Views.BlockUser` answer 403 exactly when it does not answer |
| `Access.BlockedAccountStaysListed` | mailing_app/views.py:183-196 | blocking an account leaves the user list as it was: a blocked account is still listed |
| `Access.CountSplit` | mailing_app/views.py:16-21 | with two attempt statuses, the counted attempts are exactly the successes plus the failures |
| `Access.CountAppend` | mailing_app/views.py:16-21 | counts of attempts, total and per status, add up over appended rows |
| `Access.HomeView` | mailing_app/views.py:14-23 | total_messages_sent = successful_attempts + failed_attempts, and never more than the attempts stored |
| `Access.HomeViewIgnoresRole` | mailing_app/views.py:15-16 | a manager's home counters are those of their own mailings, the same as for a plain user |
| `Access.OwnedMailingGrantsAccess` | mailing_app/views.py:45 | every client and the message of a mailing the actor owns pass the access checks and appear in the actor's lists |
| `Access.NoMailingNoReach` | mailing_app/views.py:56 | a plain user who owns no mailing can see, update or delete no client and no message |
| `Dispatch.Outcomes` | mailing_app/views.py:147-155 | one transport answer per recipient, in order, each for the letter (subject, body, 'noreply@example.com', client email) |
| `Dispatch.AttemptsFor` | mailing_app/views.py:148-166 | one attempt per answer, each for this mailing; 'Успешно' with 'Письмо отправлено успешно' iff the call returned, otherwise 'Не успешно' with str(e) |
| `Dispatch.AttemptsForStep` | mailing_app/management/commands/send_mailing.py:20-40 | processing one more client appends exactly that client's attempt to the log |
| `Dispatch.AttemptsForCounts` | mailing_app/views.py:16-21 | a run's attempts add one to the counted total per answer and one success per delivered letter, or nothing if the mailing is not counted |
| `Dispatch.ResultLineShowsOutcome` | mailing_app/management/commands/send_mailing.py:34-41 | a recipient's output line starts with ✅ iff the letter was delivered (❌ otherwise), followed by the client's email |
| `Dispatch.ResultLinesStep` | mailing_app/management/commands/send_mailing.py:34-41 | processing one more client appends exactly that client's line to the output |
| `Dispatch.ResultLines` | mailing_app/management/commands/send_mailing.py:20-41 | exactly one output line per client, in the order processed |
| `Dispatch.CommandOutput` | mailing_app/management/commands/send_mailing.py:18-45 | the output is one header line, then one line per client, then one completion line |
| `Basics.IntToStringRoundTrip` | mailing_app/management/commands/send_mailing.py:16-18 | the id printed in the header and in the not-found error names that id unambiguously |
| `Basics.DecimalRoundTrip` | mailing_app/management/commands/send_mailing.py:16-18 | the decimal digits of a natural number read back to that number |
| `Database.Dispatched` | mailing_app/views.py:147-168 | the tables after a send run: the run's attempts appended in client order, then the mailing's status set to 'Запущена'; its properties are the lemmas below |
| `Database.Recipients` | mailing_app/views.py:147 | the client records of a mailing, one per related client, in relation order |
| `Database.RecipientAddressesDistinct` | mailing_app/models.py:5 | with unique client emails, no two letters of one run go to the same address |
| `Database.DispatchedEffects` | mailing_app/views.py:143-168 | a send leaves existing attempts untouched; it appends one attempt per client for this mailing, a success iff the transport accepted that client's letter; it sets status 'Запущена' even with zero clients or all failures, and changes nothing else |
| `Database.DispatchedConsistent` | mailing_app/views.py:147-168 | a send keeps the tables consistent: every appended attempt points at the mailing just sent |
| `Database.DispatchedHomeCounts` | mailing_app/views.py:147-168 | after a send, the owner's home total grows by the number of clients and the successes by the delivered letters; other accounts' counters stay the same |
| `Database.ResendAppendsAgain` | mailing_app/views.py:143-168 | sending twice appends two full sets of attempts, so a send is not idempotent |
| `Database.Without` | mailing_app/models.py:30 | removing a client from a mailing's relation leaves exactly the other clients and keeps the relation duplicate-free |
| `Database.WithoutKeepsCopies` | mailing_app/models.py:30 | removing a client keeps every other entry of the relation with all its copies |
| `Database.WithoutKeepsOrder` | mailing_app/models.py:30 | removing a client keeps the other entries in their relative order, which is the order letters go out in |
| `Database.AttemptsNotOf` | mailing_app/models.py:43 | the attempts of deleted mailings go; every other attempt stays with all its copies, in its original relative order |
| `Database.DeleteMailing` | mailing_app/models.py:43 | deleting a mailing removes that row and exactly its attempts (every other attempt keeps all copies, in order); the other mailings and tables are unchanged and stay consistent |
| `Database.DeleteMessage` | mailing_app/models.py:29 | deleting a message removes that row, every mailing that uses it whoever owns it, and exactly their attempts; accounts, clients, the other messages and surviving mailings are unchanged |
| `Database.DeleteClient` | mailing_app/models.py:30 | deleting a client removes that row and its entries in every mailing's relation; every other field of every mailing, the attempts and the other tables are unchanged |
| `Database.DeleteAccount` | mailing_app/models.py:25 | deleting an account removes that row, the mailings it owns and exactly their attempts; clients, messages and surviving mailings are unchanged |
| `Database.CountOfSkipsGone` | mailing_app/views.py:16 | dropping the attempts of mailings outside a set leaves the count of attempts over that set unchanged |
| `Database.CountWithStatusSkipsGone` | mailing_app/views.py:19-20 | dropping the attempts of mailings outside a set leaves the per-status counts over that set unchanged |
| `Database.HomeCountsSkipGone` | mailing_app/views.py:14-21 | an account's home counters ignore the attempts of mailings it does not own |
| `Database.DeleteMailingHomeCounts` | mailing_app/models.py:43 | deleting a mailing leaves the home counters of every account that does not own it unchanged |
| `Database.DeleteMessageHomeCounts` | mailing_app/models.py:29 | deleting a message leaves the home counters of every account none of whose mailings uses it unchanged |
| `Database.DeleteClientHomeCounts` | mailing_app/models.py:30 | deleting a client changes no account's home counters |
| `Database.DeleteAccountHomeCounts` | mailing_app/models.py:25 | deleting an account leaves every other account's home counters unchanged |
| `Database.Store.Register` | users/models.py:10-11 | a new account row gets a fresh key, role 'user' and is_blocked False; nothing else changes |
| `Database.Store.InsertClient` | mailing_app/models.py:4-7 | a new client row gets a fresh key and keeps emails unique |
| `Database.Store.InsertMessage` | mailing_app/models.py:12-14 | a new message row gets a fresh key |
| `Database.Store.InsertMailing` | mailing_app/models.py:19-31 | a new mailing row gets a fresh key; its owner, message and clients must exist |
| `Database.Store.AppendAttempt` | mailing_app/models.py:37-46 | an attempt row is appended for an existing mailing; no other row changes |
| `Database.Store.SaveClient` | mailing_app/models.py:5 | saving a client keeps its email unique among the others |
| `Database.Store.SaveMessage` | mailing_app/models.py:12-14 | saving a message replaces only that row |
| `Database.Store.SaveMailing` | mailing_app/models.py:19-31 | saving a mailing replaces only that row, whose foreign keys must resolve |
| `Database.Store.SaveAccount` | users/models.py:4-11 | saving an account replaces only that row |
| `Views.ClientCreate` | mailing_app/views.py:34-40 | any logged-in account can create a client; a valid form adds exactly one row, an invalid or missing one changes nothing |
| `Views.ClientUpdate` | mailing_app/views.py:42-51 | 404 for an unknown client; 403 unless manager or owner of a mailing with the client; otherwise a valid form overwrites only email, full_name, comment |
| `Views.ClientDelete` | mailing_app/views.py:53-61 | the same checks; on POST the client is deleted with its relation rows, otherwise nothing changes |
| `Views.MessageCreate` | mailing_app/views.py:72-78 | a valid form adds exactly one message; otherwise nothing changes |
| `Views.MessageUpdate` | mailing_app/views.py:80-89 | 404, then 403 unless manager or owner of a mailing using the message; a valid form overwrites only subject and body |
| `Views.MessageDelete` | mailing_app/views.py:91-99 | the same checks; on POST the message and every mailing using it are deleted |
| `Views.CreatedMailing` | mailing_app/views.py:110-117 | a created mailing is owned by the requester, is active, and takes status, times, message and clients from the form |
| `Views.MailingCreate` | mailing_app/views.py:110-119 | for a logged-in requester, a valid form adds exactly one mailing owned by that requester; otherwise nothing changes |
| `Views.MailingUpdate` | mailing_app/views.py:121-130 | 404, then 403 unless owner or manager; a valid form overwrites only the five form fields, keeping owner and is_active |
| `Views.MailingDelete` | mailing_app/views.py:132-140 | 404, then 403 unless owner or manager; on POST the mailing and its attempts are deleted |
| `Views.SendToClients` | mailing_app/views.py:147-166 | the loop appends one attempt per client, as the transport answered, and touches no other table |
| `Views.MailingSend` | mailing_app/views.py:142-170 | 404, then 403 with nothing changed unless owner or manager; otherwise the tables become exactly those of a send run, whatever is_active and the current status |
| `Views.DeactivateMailing` | mailing_app/views.py:172-180 | 403 for a non-manager before any lookup; otherwise only is_active becomes False |
| `Views.BlockUser` | mailing_app/views.py:189-196 | 403 for a non-manager before any lookup; otherwise only is_blocked becomes True |
| `SendMailing.Resolves` | mailing_app/management/commands/send_mailing.py:13-16 | the command's id names a mailing iff it is a non-negative integer that is a key of the mailing table |
| `SendMailing.SendAndReport` | mailing_app/management/commands/send_mailing.py:20-41 | the loop appends one attempt and one output line per client, in order, as the transport answered, and touches no other table |
| `SendMailing.Handle` | mailing_app/management/commands/send_mailing.py:11-45 | an unknown id fails with 'Рассылка с ID … не найдена.' before anything is sent or written; otherwise there is no role or is_active check, the output is header, one line per client, completion, and the tables end exactly as after mailing_send |

## Left out

- The mail transport (`send_mail`) is not modelled. It is an oracle that answers each letter with delivered or raised.
- Rendering, redirects, flash messages (`messages.success`, `messages.warning`) and `@cache_page` are not modelled. A handler answers with a `Page`, `Redirect`, `Forbidden` or `NotFound` value. `VisibleMailings`, `VisibleClients`, `VisibleMessages` and `HomeView` describe a freshly rendered page. The cached page of client_list, message_list, mailing_list and home_view is keyed by URL, not by account. For its lifetime it can show one account the page rendered for another, or for a request that is not logged in.
- Authentication, sessions, signup, login and logout are left out. They are framework calls. The requesting account is a parameter.
- `Attempt.timestamp` is not modelled, because nothing reads it. `Attempt.__str__` formats it with `strftime` and is left out with it.
- Parsing date-times and e-mail syntax in forms is not modelled. So is whitespace stripping of text fields. A form carries already-typed values. `ClientLabelRoundTrip` assumes only that an email has no '<'.
- `Dispatch.AttemptsFor` assumes that only `send_mail` raises inside the `try`. `Database.DispatchedEffects` relies on the same assumption. The `try` also covers the success `Attempt.objects.create` (mailing_app/views.py:156-160, send_mailing.py:29-33) and the command's ✅ line (send_mailing.py:34). If one of those raised after `send_mail` returned, the `except` would log a second attempt, a failure, for the same client. In the command, a ❌ write that raised would then end the loop, with later clients unsent and the status never set.
- `Forms.Dedup`: the order of the client relation after a form save is the model's choice (first submitted occurrence first). Django inserts the rows from a set and `clients.all()` has no ordering, so the source promises only the set of clients. Through `Views.MailingCreate` and `Views.MailingUpdate`, that order then fixes the order of the next send and of the command's lines.
- Transactions, concurrent requests and a crash in the middle of the send loop are left out. The model runs each handler to completion.
- The command's argument parsing (`add_arguments`) and the colouring by `style.SUCCESS` are left out. The command receives the id as an integer.
- The imports at mailing_app/views.py:9-10 are not modelled. `CustomUser` is not defined by mailing_app/models.py and `UserRegisterForm` is not defined by mailing_app/forms.py, so as written views.py does not load. The handlers model what the code evidently intends, and the account record comes from users/models.py.
- The URL routes, the `create_managers_group` command and users/forms.py are not part of this model.
