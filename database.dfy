/** The tables behind the models, their referential integrity, the cascades
    that the foreign keys declare (mailing_app/models.py:25, 29, 30, 43) and
    the one effect of a send run on them. `Store` holds the tables as mutable
    state; `Db` is a snapshot of them as a value. */
module Database {
  import opened Basics
  import opened Users
  import opened Models
  import opened Access
  import opened Dispatch

  datatype Db = Db(
    accounts: map<UserId, Account>,
    clients: map<ClientId, Client>,
    messages: map<MessageId, Message>,
    mailings: map<MailingId, Mailing>,
    attempts: seq<Attempt>)

  /** Client.email is unique=True. */
  predicate UniqueEmails(clients: map<ClientId, Client>) {
    forall a, b :: a in clients && b in clients && a != b ==> clients[a].email != clients[b].email
  }

  /** Every foreign key of a mailing resolves and its client relation has no repeats. */
  predicate MailingLinked(d: Db, m: Mailing) {
    m.owner in d.accounts
    && m.message in d.messages
    && Distinct(m.clients)
    && forall i :: 0 <= i < |m.clients| ==> m.clients[i] in d.clients
  }

  predicate Consistent(d: Db) {
    (forall u :: u in d.accounts ==> d.accounts[u].id == u)
    && (forall id :: id in d.mailings ==> MailingLinked(d, d.mailings[id]))
    && (forall i :: 0 <= i < |d.attempts| ==> d.attempts[i].mailing in d.mailings)
    && UniqueEmails(d.clients)
  }

  /** The client records of a mailing, in relation order. */
  function Recipients(d: Db, m: Mailing): (rs: seq<Client>)
    requires MailingLinked(d, m)
    ensures |rs| == |m.clients|
    ensures forall i :: 0 <= i < |rs| ==> rs[i] == d.clients[m.clients[i]]
  {
    seq(|m.clients|, i requires 0 <= i < |m.clients| => d.clients[m.clients[i]])
  }

  /** Within one run no two letters go to the same address, so an oracle that
      answers per letter can give every recipient its own outcome. */
  lemma RecipientAddressesDistinct(d: Db, id: MailingId)
    requires Consistent(d) && id in d.mailings
    ensures var rs := Recipients(d, d.mailings[id]);
            forall i, j :: 0 <= i < j < |rs| ==> rs[i].email != rs[j].email
  {
  }

  /** The tables after a send run of mailing `id` with transport `t`: the run's
      attempts appended, then the mailing's status set to 'Запущена'. */
  function Dispatched(d: Db, id: MailingId, t: Transport): Db
    requires Consistent(d) && id in d.mailings
  {
    var m := d.mailings[id];
    var msg := d.messages[m.message];
    d.(attempts := d.attempts + AttemptsFor(id, Outcomes(msg, Recipients(d, m), t)),
       mailings := d.mailings[id := m.(status := Running)])
  }

  /** A send run keeps the tables consistent: every appended attempt points at
      the mailing just sent, which still exists. */
  lemma DispatchedConsistent(d: Db, id: MailingId, t: Transport)
    requires Consistent(d) && id in d.mailings
    ensures Consistent(Dispatched(d, id, t))
  {
  }

  /** A send run leaves every existing attempt as it was, appends one attempt per
      client of the mailing (a success exactly when the transport accepted that
      client's letter), sets status to 'Запущена' whatever the outcomes or the
      number of clients, and changes nothing else. */
  lemma DispatchedEffects(d: Db, id: MailingId, t: Transport)
    requires Consistent(d) && id in d.mailings
    ensures Consistent(Dispatched(d, id, t))
    ensures |Dispatched(d, id, t).attempts| == |d.attempts| + |d.mailings[id].clients|
    ensures Dispatched(d, id, t).attempts[..|d.attempts|] == d.attempts
    ensures forall i :: 0 <= i < |d.mailings[id].clients| ==>
              var m := d.mailings[id];
              var a := Dispatched(d, id, t).attempts[|d.attempts| + i];
              a.mailing == id
              && (a.status == Success
                  <==> t(LetterTo(d.messages[m.message], Recipients(d, m)[i])).Delivered?)
    ensures Dispatched(d, id, t).mailings == d.mailings[id := d.mailings[id].(status := Running)]
    ensures var r := Dispatched(d, id, t);
            r.accounts == d.accounts && r.clients == d.clients && r.messages == d.messages
  {
    DispatchedConsistent(d, id, t);
    var m := d.mailings[id];
    var log := AttemptsFor(id, Outcomes(d.messages[m.message], Recipients(d, m), t));
    assert Dispatched(d, id, t).attempts == d.attempts + log;
  }

  /** Seen from the owner's home page, a send run adds one to the total per
      client and one to the successes per delivered letter; the counters of every
      other account stay as they were. */
  lemma {:induction false} DispatchedHomeCounts(d: Db, id: MailingId, t: Transport, actor: Account)
    requires Consistent(d) && id in d.mailings
    ensures var r := Dispatched(d, id, t);
            var m := d.mailings[id];
            var ds := Outcomes(d.messages[m.message], Recipients(d, m), t);
            var before := HomeView(actor, d.mailings, d.attempts);
            var after := HomeView(actor, r.mailings, r.attempts);
            if m.owner == actor.id then
              after.total == before.total + |m.clients|
              && after.successful == before.successful + DeliveredCount(ds)
              && after.failed == before.failed + (|m.clients| - DeliveredCount(ds))
            else after == before
  {
    var r := Dispatched(d, id, t);
    var m := d.mailings[id];
    var ds := Outcomes(d.messages[m.message], Recipients(d, m), t);
    var log := AttemptsFor(id, ds);
    var ids := OwnedMailings(d.mailings, actor.id);
    assert OwnedMailings(r.mailings, actor.id) == ids;
    CountAppend(d.attempts, log, ids);
    AttemptsForCounts(id, ds, ids);
  }

  /** Sending is not idempotent: a second run appends a second full set of attempts. */
  lemma ResendAppendsAgain(d: Db, id: MailingId, t1: Transport, t2: Transport)
    requires Consistent(d) && id in d.mailings
    ensures var once := Dispatched(d, id, t1);
            Consistent(once) && id in once.mailings
            && |Dispatched(once, id, t2).attempts| == |d.attempts| + 2 * |d.mailings[id].clients|
  {
  }

  /** Sequence `s` without the element `x`. */
  function Without(s: seq<ClientId>, x: ClientId): (r: seq<ClientId>)
    ensures forall y :: y in r <==> y in s && y != x
    ensures Distinct(s) ==> Distinct(r)
    ensures |r| <= |s|
  {
    if s == [] then []
    else
      var init, last := s[..|s| - 1], s[|s| - 1];
      var front := Without(init, x);
      assert forall y :: y in s <==> y in init || y == last;
      if last == x then front
      else
        assert Distinct(s) ==> Distinct(front + [last]) by {
          if Distinct(s) {
            assert Distinct(init);
            assert forall k :: 0 <= k < |init| ==> init[k] != last;
            DistinctSnoc(front, last);
          }
        }
        front + [last]
  }

  /** Removing `x` keeps every other element with all its copies. */
  lemma {:induction false} WithoutKeepsCopies(s: seq<ClientId>, x: ClientId)
    ensures multiset(Without(s, x)) == multiset(s)[x := 0]
  {
    if s != [] {
      var init, last := s[..|s| - 1], s[|s| - 1];
      WithoutKeepsCopies(init, x);
      assert s == init + [last];
      var front := Without(init, x);
      if last != x {
        var mf: multiset<ClientId> := multiset(front);
        var mi: multiset<ClientId> := multiset(init);
        var ml: multiset<ClientId> := multiset([last]);
        assert multiset(front + [last]) == mf + ml;
        assert mf + ml == (mi + ml)[x := 0];
      }
    }
  }

  /** Removing `x` keeps the other elements in their relative order: the client
      relation keeps its order, which is the order letters go out in. */
  lemma {:induction false} WithoutKeepsOrder(s: seq<ClientId>, x: ClientId)
    ensures Subsequence(Without(s, x), s)
  {
    if s != [] {
      var init, last := s[..|s| - 1], s[|s| - 1];
      WithoutKeepsOrder(init, x);
      var front := Without(init, x);
      if last != x {
        assert Without(s, x) == front + [last];
        assert (front + [last])[..|front|] == front;
      }
    }
  }

  lemma DistinctSnoc<T>(s: seq<T>, x: T)
    requires Distinct(s) && x !in s
    ensures Distinct(s + [x])
  {
  }

  /** The attempts that survive deleting the mailings `gone`: every other attempt
      keeps all its copies and its place relative to the rest. */
  function AttemptsNotOf(attempts: seq<Attempt>, gone: set<MailingId>): (r: seq<Attempt>)
    ensures forall a :: a in r <==> a in attempts && a.mailing !in gone
    ensures forall a :: multiset(r)[a] == if a.mailing in gone then 0 else multiset(attempts)[a]
    ensures Subsequence(r, attempts)
    ensures |r| <= |attempts|
  {
    if attempts == [] then []
    else
      var init, last := attempts[..|attempts| - 1], attempts[|attempts| - 1];
      var front := AttemptsNotOf(init, gone);
      assert attempts == init + [last];
      assert forall a :: a in attempts <==> a in init || a == last;
      if last.mailing in gone then front
      else
        assert (front + [last])[..|front|] == front;
        front + [last]
  }

  /** Mailing.delete(): the mailing and, through Attempt.mailing's CASCADE, its attempts. */
  function DeleteMailing(d: Db, id: MailingId): (r: Db)
    requires Consistent(d)
    ensures Consistent(r)
    ensures id !in r.mailings && r.mailings.Keys == d.mailings.Keys - {id}
    ensures forall k :: k in r.mailings ==> r.mailings[k] == d.mailings[k]
    ensures r.accounts == d.accounts && r.clients == d.clients && r.messages == d.messages
    ensures forall a :: a in r.attempts <==> a in d.attempts && a.mailing != id
    ensures forall a :: multiset(r.attempts)[a] == if a.mailing == id then 0 else multiset(d.attempts)[a]
    ensures Subsequence(r.attempts, d.attempts)
  {
    var r := d.(mailings := d.mailings - {id}, attempts := AttemptsNotOf(d.attempts, {id}));
    assert forall i :: 0 <= i < |r.attempts| ==> r.attempts[i] in r.attempts;
    r
  }

  /** The mailings that use message `msg`. */
  function MailingsUsing(mailings: map<MailingId, Mailing>, msg: MessageId): set<MailingId> {
    set id | id in mailings && mailings[id].message == msg
  }

  /** Message.delete(): Mailing.message is CASCADE, so every mailing using the
      message goes too, and with them their attempts. */
  function DeleteMessage(d: Db, msg: MessageId): (r: Db)
    requires Consistent(d)
    ensures Consistent(r)
    ensures r.messages == d.messages - {msg}
    ensures r.accounts == d.accounts && r.clients == d.clients
    ensures forall id :: id in r.mailings <==> id in d.mailings && d.mailings[id].message != msg
    ensures forall k :: k in r.mailings ==> r.mailings[k] == d.mailings[k]
    ensures forall a :: a in r.attempts <==> a in d.attempts && a.mailing in r.mailings
    ensures forall a :: multiset(r.attempts)[a] == if a.mailing in MailingsUsing(d.mailings, msg) then 0 else multiset(d.attempts)[a]
    ensures Subsequence(r.attempts, d.attempts)
  {
    var gone := MailingsUsing(d.mailings, msg);
    var r := d.(messages := d.messages - {msg}, mailings := d.mailings - gone,
                attempts := AttemptsNotOf(d.attempts, gone));
    assert forall i :: 0 <= i < |r.attempts| ==> r.attempts[i] in r.attempts;
    r
  }

  /** Client.delete(): the client and its rows in every mailing's client
      relation; the mailings themselves stay, possibly with no clients left. */
  function DeleteClient(d: Db, c: ClientId): (r: Db)
    requires Consistent(d)
    ensures Consistent(r)
    ensures r.clients == d.clients - {c}
    ensures r.accounts == d.accounts && r.messages == d.messages
    ensures r.mailings.Keys == d.mailings.Keys && r.attempts == d.attempts
    ensures forall k :: k in r.mailings ==>
              r.mailings[k] == d.mailings[k].(clients := Without(d.mailings[k].clients, c))
    ensures forall id, x :: id in r.mailings ==>
              (x in r.mailings[id].clients <==> x in d.mailings[id].clients && x != c)
  {
    var mailings := map id | id in d.mailings :: d.mailings[id].(clients := Without(d.mailings[id].clients, c));
    var r := d.(clients := d.clients - {c}, mailings := mailings);
    forall id | id in r.mailings
      ensures MailingLinked(r, r.mailings[id])
    {
      var s := r.mailings[id].clients;
      forall i | 0 <= i < |s| ensures s[i] in r.clients {
        assert s[i] in s;
      }
    }
    r
  }

  /** Deleting an account: Mailing.owner is CASCADE, so the account's mailings
      and their attempts go with it. */
  function DeleteAccount(d: Db, u: UserId): (r: Db)
    requires Consistent(d)
    ensures Consistent(r)
    ensures r.accounts == d.accounts - {u}
    ensures r.clients == d.clients && r.messages == d.messages
    ensures forall id :: id in r.mailings <==> id in d.mailings && d.mailings[id].owner != u
    ensures forall k :: k in r.mailings ==> r.mailings[k] == d.mailings[k]
    ensures forall a :: a in r.attempts <==> a in d.attempts && a.mailing in r.mailings
    ensures forall a :: multiset(r.attempts)[a] == if a.mailing in OwnedMailings(d.mailings, u) then 0 else multiset(d.attempts)[a]
    ensures Subsequence(r.attempts, d.attempts)
  {
    var gone := OwnedMailings(d.mailings, u);
    var r := d.(accounts := d.accounts - {u}, mailings := d.mailings - gone,
                attempts := AttemptsNotOf(d.attempts, gone));
    assert forall i :: 0 <= i < |r.attempts| ==> r.attempts[i] in r.attempts;
    r
  }

  /** Dropping the attempts of mailings outside `ids` changes neither the count
      over `ids`... */
  lemma {:induction false} CountOfSkipsGone(attempts: seq<Attempt>, gone: set<MailingId>, ids: set<MailingId>)
    requires gone !! ids
    ensures CountOf(AttemptsNotOf(attempts, gone), ids) == CountOf(attempts, ids)
  {
    if attempts != [] {
      var init, last := attempts[..|attempts| - 1], attempts[|attempts| - 1];
      CountOfSkipsGone(init, gone, ids);
      var front := AttemptsNotOf(init, gone);
      if last.mailing !in gone {
        var r := front + [last];
        assert AttemptsNotOf(attempts, gone) == r;
        assert r[..|r| - 1] == front;
        assert CountOf(r, ids) == CountOf(front, ids) + (if last.mailing in ids then 1 else 0);
      }
    }
  }

  /** ... nor the count over `ids` of either status. */
  lemma {:induction false} CountWithStatusSkipsGone(attempts: seq<Attempt>, gone: set<MailingId>,
                                                    ids: set<MailingId>, st: AttemptStatus)
    requires gone !! ids
    ensures CountWithStatus(AttemptsNotOf(attempts, gone), ids, st) == CountWithStatus(attempts, ids, st)
  {
    if attempts != [] {
      var init, last := attempts[..|attempts| - 1], attempts[|attempts| - 1];
      CountWithStatusSkipsGone(init, gone, ids, st);
      var front := AttemptsNotOf(init, gone);
      var bump := if last.mailing in ids && last.status == st then 1 else 0;
      assert CountWithStatus(attempts, ids, st) == CountWithStatus(init, ids, st) + bump;
      if last.mailing !in gone {
        var r := front + [last];
        assert AttemptsNotOf(attempts, gone) == r;
        assert r[..|r| - 1] == front;
        assert CountWithStatus(r, ids, st) == CountWithStatus(front, ids, st) + bump;
      } else {
        assert AttemptsNotOf(attempts, gone) == front;
      }
    }
  }

  /** The home counters over `ids` ignore the attempts of mailings outside `ids`. */
  lemma HomeCountsSkipGone(actor: Account, mailings: map<MailingId, Mailing>,
                           attempts: seq<Attempt>, gone: set<MailingId>)
    requires gone !! OwnedMailings(mailings, actor.id)
    ensures HomeView(actor, mailings, AttemptsNotOf(attempts, gone)) == HomeView(actor, mailings, attempts)
  {
    var ids := OwnedMailings(mailings, actor.id);
    CountOfSkipsGone(attempts, gone, ids);
    CountWithStatusSkipsGone(attempts, gone, ids, Success);
    CountWithStatusSkipsGone(attempts, gone, ids, Failure);
  }

  /** Deleting a mailing leaves the home counters of every account that does not
      own it as they were. */
  lemma DeleteMailingHomeCounts(d: Db, id: MailingId, actor: Account)
    requires Consistent(d) && id in d.mailings && d.mailings[id].owner != actor.id
    ensures var r := DeleteMailing(d, id);
            HomeView(actor, r.mailings, r.attempts) == HomeView(actor, d.mailings, d.attempts)
  {
    var ids := OwnedMailings(d.mailings, actor.id);
    assert OwnedMailings(DeleteMailing(d, id).mailings, actor.id) == ids;
    HomeCountsSkipGone(actor, d.mailings, d.attempts, {id});
  }

  /** Deleting a message leaves the home counters of every account none of whose
      mailings uses it as they were. */
  lemma DeleteMessageHomeCounts(d: Db, msg: MessageId, actor: Account)
    requires Consistent(d)
    requires forall k :: k in d.mailings && d.mailings[k].owner == actor.id ==> d.mailings[k].message != msg
    ensures var r := DeleteMessage(d, msg);
            HomeView(actor, r.mailings, r.attempts) == HomeView(actor, d.mailings, d.attempts)
  {
    var ids := OwnedMailings(d.mailings, actor.id);
    assert OwnedMailings(DeleteMessage(d, msg).mailings, actor.id) == ids;
    HomeCountsSkipGone(actor, d.mailings, d.attempts, MailingsUsing(d.mailings, msg));
  }

  /** Deleting a client removes no mailing and no attempt, so no home counter moves. */
  lemma DeleteClientHomeCounts(d: Db, c: ClientId, actor: Account)
    requires Consistent(d)
    ensures var r := DeleteClient(d, c);
            HomeView(actor, r.mailings, r.attempts) == HomeView(actor, d.mailings, d.attempts)
  {
    assert OwnedMailings(DeleteClient(d, c).mailings, actor.id) == OwnedMailings(d.mailings, actor.id);
  }

  /** Deleting an account leaves the home counters of every other account as they were. */
  lemma DeleteAccountHomeCounts(d: Db, u: UserId, actor: Account)
    requires Consistent(d) && actor.id != u
    ensures var r := DeleteAccount(d, u);
            HomeView(actor, r.mailings, r.attempts) == HomeView(actor, d.mailings, d.attempts)
  {
    var ids := OwnedMailings(d.mailings, actor.id);
    assert OwnedMailings(DeleteAccount(d, u).mailings, actor.id) == ids;
    HomeCountsSkipGone(actor, d.mailings, d.attempts, OwnedMailings(d.mailings, u));
  }

  /** The tables as mutable state. Primary keys come from one counter per table,
      as an auto-increment column would hand them out. */
  class Store {
    var accounts: map<UserId, Account>
    var clients: map<ClientId, Client>
    var messages: map<MessageId, Message>
    var mailings: map<MailingId, Mailing>
    var attempts: seq<Attempt>
    var nextAccount: nat
    var nextClient: nat
    var nextMessage: nat
    var nextMailing: nat

    function State(): Db
      reads this
    {
      Db(accounts, clients, messages, mailings, attempts)
    }

    ghost predicate Valid()
      reads this
    {
      Consistent(State())
      && (forall k :: k in accounts ==> k < nextAccount)
      && (forall k :: k in clients ==> k < nextClient)
      && (forall k :: k in messages ==> k < nextMessage)
      && (forall k :: k in mailings ==> k < nextMailing)
    }

    constructor ()
      ensures Valid()
      ensures State() == Db(map[], map[], map[], map[], [])
    {
      accounts, clients, messages, mailings, attempts := map[], map[], map[], map[], [];
      nextAccount, nextClient, nextMessage, nextMailing := 0, 0, 0, 0;
    }

    /** Creating a CustomUser row: the role and blocked flag take their defaults. */
    method Register(username: string) returns (id: UserId)
      requires Valid()
      modifies this
      ensures Valid()
      ensures id == old(nextAccount)
      ensures id !in old(accounts)
      ensures State() == old(State()).(accounts := old(accounts)[id := NewAccount(id, username)])
    {
      id := nextAccount;
      accounts := accounts[id := NewAccount(id, username)];
      nextAccount := nextAccount + 1;
    }

    method InsertClient(c: Client) returns (id: ClientId)
      requires Valid()
      requires forall k :: k in clients ==> clients[k].email != c.email
      modifies this
      ensures Valid()
      ensures id == old(nextClient)
      ensures id !in old(clients)
      ensures State() == old(State()).(clients := old(clients)[id := c])
    {
      id := nextClient;
      clients := clients[id := c];
      nextClient := nextClient + 1;
    }

    method InsertMessage(msg: Message) returns (id: MessageId)
      requires Valid()
      modifies this
      ensures Valid()
      ensures id == old(nextMessage)
      ensures id !in old(messages)
      ensures State() == old(State()).(messages := old(messages)[id := msg])
    {
      id := nextMessage;
      messages := messages[id := msg];
      nextMessage := nextMessage + 1;
    }

    method InsertMailing(m: Mailing) returns (id: MailingId)
      requires Valid() && MailingLinked(State(), m)
      modifies this
      ensures Valid()
      ensures id == old(nextMailing)
      ensures id !in old(mailings)
      ensures State() == old(State()).(mailings := old(mailings)[id := m])
    {
      id := nextMailing;
      mailings := mailings[id := m];
      nextMailing := nextMailing + 1;
    }

    /** Attempt.objects.create(...). */
    method AppendAttempt(a: Attempt)
      requires Valid() && a.mailing in mailings
      modifies this
      ensures Valid()
      ensures State() == old(State()).(attempts := old(attempts) + [a])
      ensures nextAccount == old(nextAccount) && nextClient == old(nextClient)
      ensures nextMessage == old(nextMessage) && nextMailing == old(nextMailing)
    {
      attempts := attempts + [a];
    }

    /** save() of an existing client: the unique email must stay unique. */
    method SaveClient(id: ClientId, c: Client)
      requires Valid() && id in clients
      requires forall k :: k in clients && k != id ==> clients[k].email != c.email
      modifies this
      ensures Valid()
      ensures State() == old(State()).(clients := old(clients)[id := c])
    {
      clients := clients[id := c];
    }

    method SaveMessage(id: MessageId, msg: Message)
      requires Valid() && id in messages
      modifies this
      ensures Valid()
      ensures State() == old(State()).(messages := old(messages)[id := msg])
    {
      messages := messages[id := msg];
    }

    method SaveMailing(id: MailingId, m: Mailing)
      requires Valid() && id in mailings && MailingLinked(State(), m)
      modifies this
      ensures Valid()
      ensures State() == old(State()).(mailings := old(mailings)[id := m])
      ensures nextAccount == old(nextAccount) && nextClient == old(nextClient)
      ensures nextMessage == old(nextMessage) && nextMailing == old(nextMailing)
    {
      mailings := mailings[id := m];
    }

    method SaveAccount(id: UserId, a: Account)
      requires Valid() && id in accounts && a.id == id
      modifies this
      ensures Valid()
      ensures State() == old(State()).(accounts := old(accounts)[id := a])
    {
      accounts := accounts[id := a];
    }

    /** Replaces the tables by a consistent snapshot with no new keys (a delete). */
    method Restore(d: Db)
      requires Valid() && Consistent(d)
      requires d.accounts.Keys <= accounts.Keys && d.clients.Keys <= clients.Keys
      requires d.messages.Keys <= messages.Keys && d.mailings.Keys <= mailings.Keys
      modifies this
      ensures Valid()
      ensures State() == d
    {
      accounts, clients, messages, mailings, attempts :=
        d.accounts, d.clients, d.messages, d.mailings, d.attempts;
    }
  }
}
