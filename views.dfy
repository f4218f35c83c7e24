/** The state-changing handlers of mailing_app/views.py over the tables: each
    looks the record up (404), applies its access rule (403), then either shows a
    page and changes nothing, or saves, deletes or sends and redirects. */
module Views {
  import opened Basics
  import opened Users
  import opened Models
  import opened Forms
  import opened Access
  import opened Dispatch
  import opened Database

  /** What a handler answers. `Page` renders a template without saving anything. */
  datatype Response = Forbidden | NotFound | Page(template: string) | Redirect(route: string)

  method ClientCreate(db: Store, form: Option<ClientForm>) returns (r: Response)
    requires db.Valid()
    modifies db
    ensures db.Valid()
    ensures form.Some? && ClientFormValid(form.value, old(db.clients), None) ==>
              r == Redirect("client_list")
              && db.State() == old(db.State()).(clients := old(db.clients)[old(db.nextClient) := ClientFromForm(form.value)])
    ensures !(form.Some? && ClientFormValid(form.value, old(db.clients), None)) ==>
              r == Page("mailing_app/client_form.html") && unchanged(db)
  {
    if form.Some? && ClientFormValid(form.value, db.clients, None) {
      var _ := db.InsertClient(ClientFromForm(form.value));
      return Redirect("client_list");
    }
    return Page("mailing_app/client_form.html");
  }

  method ClientUpdate(db: Store, actor: Account, pk: ClientId, form: Option<ClientForm>) returns (r: Response)
    requires db.Valid()
    modifies db
    ensures db.Valid()
    ensures pk !in old(db.clients) ==> r == NotFound && unchanged(db)
    ensures pk in old(db.clients) && !CanManageClient(actor, old(db.mailings), pk) ==>
              r == Forbidden && unchanged(db)
    ensures pk in old(db.clients) && CanManageClient(actor, old(db.mailings), pk) ==>
              if form.Some? && ClientFormValid(form.value, old(db.clients), Some(pk)) then
                r == Redirect("client_list")
                && db.State() == old(db.State()).(clients := old(db.clients)[pk := ClientFromForm(form.value)])
              else r == Page("mailing_app/client_form.html") && unchanged(db)
  {
    if pk !in db.clients {
      return NotFound;
    }
    if !CanManageClient(actor, db.mailings, pk) {
      return Forbidden;
    }
    if form.Some? && ClientFormValid(form.value, db.clients, Some(pk)) {
      db.SaveClient(pk, ClientFromForm(form.value));
      return Redirect("client_list");
    }
    return Page("mailing_app/client_form.html");
  }

  method ClientDelete(db: Store, actor: Account, pk: ClientId, isPost: bool) returns (r: Response)
    requires db.Valid()
    modifies db
    ensures db.Valid()
    ensures pk !in old(db.clients) ==> r == NotFound && unchanged(db)
    ensures pk in old(db.clients) && !CanManageClient(actor, old(db.mailings), pk) ==>
              r == Forbidden && unchanged(db)
    ensures pk in old(db.clients) && CanManageClient(actor, old(db.mailings), pk) ==>
              if isPost then
                r == Redirect("client_list") && db.State() == DeleteClient(old(db.State()), pk)
              else r == Page("mailing_app/client_confirm_delete.html") && unchanged(db)
  {
    if pk !in db.clients {
      return NotFound;
    }
    if !CanManageClient(actor, db.mailings, pk) {
      return Forbidden;
    }
    if isPost {
      db.Restore(DeleteClient(db.State(), pk));
      return Redirect("client_list");
    }
    return Page("mailing_app/client_confirm_delete.html");
  }

  method MessageCreate(db: Store, form: Option<MessageForm>) returns (r: Response)
    requires db.Valid()
    modifies db
    ensures db.Valid()
    ensures form.Some? && MessageFormValid(form.value) ==>
              r == Redirect("message_list")
              && db.State() == old(db.State()).(messages := old(db.messages)[old(db.nextMessage) := MessageFromForm(form.value)])
    ensures !(form.Some? && MessageFormValid(form.value)) ==>
              r == Page("mailing_app/message_form.html") && unchanged(db)
  {
    if form.Some? && MessageFormValid(form.value) {
      var _ := db.InsertMessage(MessageFromForm(form.value));
      return Redirect("message_list");
    }
    return Page("mailing_app/message_form.html");
  }

  method MessageUpdate(db: Store, actor: Account, pk: MessageId, form: Option<MessageForm>) returns (r: Response)
    requires db.Valid()
    modifies db
    ensures db.Valid()
    ensures pk !in old(db.messages) ==> r == NotFound && unchanged(db)
    ensures pk in old(db.messages) && !CanManageMessage(actor, old(db.mailings), pk) ==>
              r == Forbidden && unchanged(db)
    ensures pk in old(db.messages) && CanManageMessage(actor, old(db.mailings), pk) ==>
              if form.Some? && MessageFormValid(form.value) then
                r == Redirect("message_list")
                && db.State() == old(db.State()).(messages := old(db.messages)[pk := MessageFromForm(form.value)])
              else r == Page("mailing_app/message_form.html") && unchanged(db)
  {
    if pk !in db.messages {
      return NotFound;
    }
    if !CanManageMessage(actor, db.mailings, pk) {
      return Forbidden;
    }
    if form.Some? && MessageFormValid(form.value) {
      db.SaveMessage(pk, MessageFromForm(form.value));
      return Redirect("message_list");
    }
    return Page("mailing_app/message_form.html");
  }

  /** Deleting a message takes every mailing that uses it along, whoever owns them. */
  method MessageDelete(db: Store, actor: Account, pk: MessageId, isPost: bool) returns (r: Response)
    requires db.Valid()
    modifies db
    ensures db.Valid()
    ensures pk !in old(db.messages) ==> r == NotFound && unchanged(db)
    ensures pk in old(db.messages) && !CanManageMessage(actor, old(db.mailings), pk) ==>
              r == Forbidden && unchanged(db)
    ensures pk in old(db.messages) && CanManageMessage(actor, old(db.mailings), pk) ==>
              if isPost then
                r == Redirect("message_list") && db.State() == DeleteMessage(old(db.State()), pk)
              else r == Page("mailing_app/message_confirm_delete.html") && unchanged(db)
  {
    if pk !in db.messages {
      return NotFound;
    }
    if !CanManageMessage(actor, db.mailings, pk) {
      return Forbidden;
    }
    if isPost {
      db.Restore(DeleteMessage(db.State(), pk));
      return Redirect("message_list");
    }
    return Page("mailing_app/message_confirm_delete.html");
  }

  /** The mailing a valid create form describes: the model defaults (is_active
      True, status 'Создана') overwritten by the form's five fields, owned by the
      requesting account. */
  function CreatedMailing(actor: Account, f: MailingForm): (m: Mailing)
    requires ParseMailingStatus(f.status).Some?
    ensures m.owner == actor.id && m.isActive
    ensures StatusValue(m.status) == f.status && m.message == f.message
    ensures m.startTime == f.startTime && m.endTime == f.endTime
    ensures forall c :: c in m.clients <==> c in f.clients
  {
    ApplyMailingForm(NewMailing(actor.id, f.startTime, f.endTime, f.message, f.clients), f)
  }

  method MailingCreate(db: Store, actor: Account, form: Option<MailingForm>) returns (r: Response)
    requires db.Valid() && actor.id in db.accounts
    modifies db
    ensures db.Valid()
    ensures form.Some? && MailingFormValid(form.value, old(db.messages), old(db.clients)) ==>
              r == Redirect("mailing_list")
              && db.State() == old(db.State()).(mailings := old(db.mailings)[old(db.nextMailing) := CreatedMailing(actor, form.value)])
    ensures !(form.Some? && MailingFormValid(form.value, old(db.messages), old(db.clients))) ==>
              r == Page("mailing_app/mailing_form.html") && unchanged(db)
  {
    if form.Some? && MailingFormValid(form.value, db.messages, db.clients) {
      var m := CreatedMailing(actor, form.value);
      assert forall c :: c in m.clients ==> c in db.clients by {
        forall c | c in m.clients ensures c in db.clients {
          var i :| 0 <= i < |form.value.clients| && form.value.clients[i] == c;
        }
      }
      var _ := db.InsertMailing(m);
      return Redirect("mailing_list");
    }
    return Page("mailing_app/mailing_form.html");
  }

  method MailingUpdate(db: Store, actor: Account, pk: MailingId, form: Option<MailingForm>) returns (r: Response)
    requires db.Valid()
    modifies db
    ensures db.Valid()
    ensures pk !in old(db.mailings) ==> r == NotFound && unchanged(db)
    ensures pk in old(db.mailings) && !CanManageMailing(actor, old(db.mailings[pk])) ==>
              r == Forbidden && unchanged(db)
    ensures pk in old(db.mailings) && CanManageMailing(actor, old(db.mailings[pk])) ==>
              if form.Some? && MailingFormValid(form.value, old(db.messages), old(db.clients)) then
                r == Redirect("mailing_list")
                && db.State() == old(db.State()).(mailings := old(db.mailings)[pk := ApplyMailingForm(old(db.mailings[pk]), form.value)])
              else r == Page("mailing_app/mailing_form.html") && unchanged(db)
  {
    if pk !in db.mailings {
      return NotFound;
    }
    var mailing := db.mailings[pk];
    if !CanManageMailing(actor, mailing) {
      return Forbidden;
    }
    if form.Some? && MailingFormValid(form.value, db.messages, db.clients) {
      var m := ApplyMailingForm(mailing, form.value);
      assert forall c :: c in m.clients ==> c in db.clients by {
        forall c | c in m.clients ensures c in db.clients {
          var i :| 0 <= i < |form.value.clients| && form.value.clients[i] == c;
        }
      }
      db.SaveMailing(pk, m);
      return Redirect("mailing_list");
    }
    return Page("mailing_app/mailing_form.html");
  }

  method MailingDelete(db: Store, actor: Account, pk: MailingId, isPost: bool) returns (r: Response)
    requires db.Valid()
    modifies db
    ensures db.Valid()
    ensures pk !in old(db.mailings) ==> r == NotFound && unchanged(db)
    ensures pk in old(db.mailings) && !CanManageMailing(actor, old(db.mailings[pk])) ==>
              r == Forbidden && unchanged(db)
    ensures pk in old(db.mailings) && CanManageMailing(actor, old(db.mailings[pk])) ==>
              if isPost then
                r == Redirect("mailing_list") && db.State() == DeleteMailing(old(db.State()), pk)
              else r == Page("mailing_app/mailing_confirm_delete.html") && unchanged(db)
  {
    if pk !in db.mailings {
      return NotFound;
    }
    var mailing := db.mailings[pk];
    if !CanManageMailing(actor, mailing) {
      return Forbidden;
    }
    if isPost {
      db.Restore(DeleteMailing(db.State(), pk));
      return Redirect("mailing_list");
    }
    return Page("mailing_app/mailing_confirm_delete.html");
  }

  /** The body of the `for client in mailing.clients.all()` loop, run over every
      client of mailing `pk`: a transport call, then one Attempt row whichever
      way the call ended. */
  method SendToClients(db: Store, pk: MailingId, transport: Transport)
    requires db.Valid() && pk in db.mailings
    modifies db
    ensures db.Valid()
    ensures var m := old(db.mailings[pk]);
            db.State() == old(db.State()).(attempts := old(db.attempts)
              + AttemptsFor(pk, Outcomes(old(db.messages[m.message]), Recipients(old(db.State()), m), transport)))
    ensures db.nextAccount == old(db.nextAccount) && db.nextClient == old(db.nextClient)
    ensures db.nextMessage == old(db.nextMessage) && db.nextMailing == old(db.nextMailing)
  {
    var mailing := db.mailings[pk];
    var msg := db.messages[mailing.message];
    ghost var d0 := db.State();
    ghost var rs := Recipients(d0, mailing);
    for i := 0 to |mailing.clients|
      invariant db.Valid()
      invariant db.accounts == d0.accounts && db.clients == d0.clients
      invariant db.messages == d0.messages && db.mailings == d0.mailings
      invariant db.attempts == d0.attempts + AttemptsFor(pk, Outcomes(msg, rs[..i], transport))
      invariant db.nextAccount == old(db.nextAccount) && db.nextClient == old(db.nextClient)
      invariant db.nextMessage == old(db.nextMessage) && db.nextMailing == old(db.nextMailing)
    {
      var client := db.clients[mailing.clients[i]];
      var outcome := transport(LetterTo(msg, client));
      AttemptsForStep(pk, msg, rs, i, transport, d0.attempts, db.attempts, outcome);
      match outcome {
        case Delivered =>
          db.AppendAttempt(Attempt(pk, Success, SuccessResponse));
        case Raised(e) =>
          db.AppendAttempt(Attempt(pk, Failure, e));
      }
    }
    assert rs[..|mailing.clients|] == rs;
  }

  /** mailing_send: after the owner/manager check, one transport call and one
      Attempt per client, a failure never stopping the loop; then the status
      becomes 'Запущена'. Neither is_active nor the current status is looked at. */
  method MailingSend(db: Store, actor: Account, pk: MailingId, transport: Transport) returns (r: Response)
    requires db.Valid()
    modifies db
    ensures db.Valid()
    ensures pk !in old(db.mailings) ==> r == NotFound && unchanged(db)
    ensures pk in old(db.mailings) && !CanManageMailing(actor, old(db.mailings[pk])) ==>
              r == Forbidden && unchanged(db)
    ensures pk in old(db.mailings) && CanManageMailing(actor, old(db.mailings[pk])) ==>
              r == Redirect("mailing_list") && db.State() == Dispatched(old(db.State()), pk, transport)
  {
    if pk !in db.mailings {
      return NotFound;
    }
    var mailing := db.mailings[pk];
    if !CanManageMailing(actor, mailing) {
      return Forbidden;
    }
    SendToClients(db, pk, transport);
    db.SaveMailing(pk, mailing.(status := Running));
    return Redirect("mailing_list");
  }

  /** Managers only, checked before the lookup; only is_active changes. */
  method DeactivateMailing(db: Store, actor: Account, pk: MailingId) returns (r: Response)
    requires db.Valid()
    modifies db
    ensures db.Valid()
    ensures r == Forbidden <==> UserList(actor, old(db.accounts)).None?
    ensures !IsManager(actor) ==> r == Forbidden && unchanged(db)
    ensures IsManager(actor) && pk !in old(db.mailings) ==> r == NotFound && unchanged(db)
    ensures IsManager(actor) && pk in old(db.mailings) ==>
              r == Redirect("mailing_list")
              && db.State() == old(db.State()).(mailings := old(db.mailings)[pk := old(db.mailings[pk]).(isActive := false)])
  {
    if actor.role != Manager {
      return Forbidden;
    }
    if pk !in db.mailings {
      return NotFound;
    }
    var mailing := db.mailings[pk];
    db.SaveMailing(pk, mailing.(isActive := false));
    return Redirect("mailing_list");
  }

  /** Managers only, checked before the lookup; only is_blocked changes. */
  method BlockUser(db: Store, actor: Account, pk: UserId) returns (r: Response)
    requires db.Valid()
    modifies db
    ensures db.Valid()
    ensures r == Forbidden <==> UserList(actor, old(db.accounts)).None?
    ensures !IsManager(actor) ==> r == Forbidden && unchanged(db)
    ensures IsManager(actor) && pk !in old(db.accounts) ==> r == NotFound && unchanged(db)
    ensures IsManager(actor) && pk in old(db.accounts) ==>
              r == Redirect("user_list")
              && db.State() == old(db.State()).(accounts := old(db.accounts)[pk := old(db.accounts[pk]).(isBlocked := true)])
  {
    if actor.role != Manager {
      return Forbidden;
    }
    if pk !in db.accounts {
      return NotFound;
    }
    var user := db.accounts[pk];
    db.SaveAccount(pk, user.(isBlocked := true));
    return Redirect("user_list");
  }
}
