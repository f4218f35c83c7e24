/** The send_mailing management command
    (mailing_app/management/commands/send_mailing.py): the same loop as
    mailing_send, reached by mailing id alone, with no role, ownership or
    is_active check, reporting each recipient on its output. */
module SendMailing {
  import opened Basics
  import opened Models
  import opened Dispatch
  import opened Database

  /** Mailing.objects.get(pk=mailing_id) finds a row. */
  predicate Resolves(mailings: map<MailingId, Mailing>, mailingId: int) {
    mailingId >= 0 && mailingId as nat in mailings
  }

  /** The command's `for client in mailing.clients.all()` loop: one transport
      call, one Attempt row and one output line per client, a failure never
      stopping the loop. */
  method SendAndReport(db: Store, pk: MailingId, transport: Transport) returns (lines: seq<string>)
    requires db.Valid() && pk in db.mailings
    modifies db
    ensures db.Valid()
    ensures var m := old(db.mailings[pk]);
            var rs := Recipients(old(db.State()), m);
            var ds := Outcomes(old(db.messages[m.message]), rs, transport);
            db.State() == old(db.State()).(attempts := old(db.attempts) + AttemptsFor(pk, ds))
            && lines == ResultLines(rs, ds)
    ensures db.nextAccount == old(db.nextAccount) && db.nextClient == old(db.nextClient)
    ensures db.nextMessage == old(db.nextMessage) && db.nextMailing == old(db.nextMailing)
  {
    var mailing := db.mailings[pk];
    var msg := db.messages[mailing.message];
    ghost var d0 := db.State();
    ghost var rs := Recipients(d0, mailing);
    lines := [];
    for i := 0 to |mailing.clients|
      invariant db.Valid()
      invariant db.accounts == d0.accounts && db.clients == d0.clients
      invariant db.messages == d0.messages && db.mailings == d0.mailings
      invariant db.attempts == d0.attempts + AttemptsFor(pk, Outcomes(msg, rs[..i], transport))
      invariant lines == ResultLines(rs[..i], Outcomes(msg, rs[..i], transport))
      invariant db.nextAccount == old(db.nextAccount) && db.nextClient == old(db.nextClient)
      invariant db.nextMessage == old(db.nextMessage) && db.nextMailing == old(db.nextMailing)
    {
      var client := db.clients[mailing.clients[i]];
      var outcome := transport(LetterTo(msg, client));
      AttemptsForStep(pk, msg, rs, i, transport, d0.attempts, db.attempts, outcome);
      ResultLinesStep(msg, rs, i, transport, lines, outcome);
      var line: string;
      match outcome {
        case Delivered =>
          db.AppendAttempt(Attempt(pk, Success, SuccessResponse));
          line := "✅ " + client.email + " — отправлено";
        case Raised(e) =>
          db.AppendAttempt(Attempt(pk, Failure, e));
          line := "❌ " + client.email + " — ошибка: " + e;
      }
      assert line == ResultLine(rs[i], outcome);
      lines := lines + [line];
    }
    assert rs[..|mailing.clients|] == rs;
  }

  /** Command.handle: an id that names no mailing raises CommandError before
      anything is written or sent. Otherwise the output is a header line, one
      line per client in the order processed and a completion line, and the
      tables end up exactly as after mailing_send by an authorised account. */
  method Handle(db: Store, mailingId: int, transport: Transport) returns (r: Result<seq<string>, string>)
    requires db.Valid()
    modifies db
    ensures db.Valid()
    ensures !Resolves(old(db.mailings), mailingId) ==> r == Err(NotFoundError(mailingId)) && unchanged(db)
    ensures Resolves(old(db.mailings), mailingId) ==>
              var m := old(db.mailings[mailingId as nat]);
              var rs := Recipients(old(db.State()), m);
              r == Ok(CommandOutput(mailingId, rs, Outcomes(old(db.messages[m.message]), rs, transport)))
              && db.State() == Dispatched(old(db.State()), mailingId as nat, transport)
  {
    if !Resolves(db.mailings, mailingId) {
      return Err(NotFoundError(mailingId));
    }
    var pk: MailingId := mailingId as nat;
    var mailing := db.mailings[pk];
    var out := [HeaderLine(mailingId)];
    var lines := SendAndReport(db, pk, transport);
    out := out + lines;
    db.SaveMailing(pk, mailing.(status := Running));
    out := out + [DoneLine];
    return Ok(out);
  }
}
