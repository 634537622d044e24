/** Support tickets: a user's question opens a ticket numbered within that
    user's tickets; an admin closes it, with or without a reply, once. */
module Support {
  import opened Common
  import opened Clock

  datatype TicketStatus = Open | Closed

  /** A row of `support_tickets`; `id` is the table's serial id. */
  datatype Ticket = Ticket(id: int, userId: int, number: int, status: TicketStatus, question: string,
                           adminId: Option<int>, adminReply: Option<string>, createdAt: Instant,
                           closedAt: Option<Instant>)

  /** The longest question or reply kept. */
  const MAX_TEXT: nat := 2000

  /** The `limit` of `list_open`/`list_all` when the caller gives none. */
  const DEFAULT_LIMIT: nat := 20

  predicate IdsAreIndexes(ts: seq<Ticket>) {
    forall i :: 0 <= i < |ts| ==> ts[i].id == i
  }

  /** How many tickets of `u` are in `ts`. */
  function CountOf(ts: seq<Ticket>, u: int): nat
    decreases |ts|
  {
    if ts == [] then 0
    else CountOf(ts[..|ts| - 1], u) + if ts[|ts| - 1].userId == u then 1 else 0
  }

  /** `COALESCE(MAX(number), 0)` over the tickets of `u`. */
  function MaxNumber(ts: seq<Ticket>, u: int): (m: int)
    ensures m >= 0
    ensures forall i :: 0 <= i < |ts| && ts[i].userId == u ==> ts[i].number <= m
    ensures m > 0 ==> exists i :: 0 <= i < |ts| && ts[i].userId == u && ts[i].number == m
    decreases |ts|
  {
    if ts == [] then 0
    else
      var m := MaxNumber(ts[..|ts| - 1], u);
      var t := ts[|ts| - 1];
      if t.userId == u && t.number > m then t.number else m
  }

  /** The k-th ticket of a user carries number k. */
  predicate NumberedPerUser(ts: seq<Ticket>) {
    forall i :: 0 <= i < |ts| ==> ts[i].number == CountOf(ts[..i], ts[i].userId) + 1
  }

  predicate Valid(ts: seq<Ticket>) {
    IdsAreIndexes(ts) && NumberedPerUser(ts)
  }

  /** `create`: the next number of the user, an open ticket. */
  function Created(ts: seq<Ticket>, u: int, question: string, now: Instant): Ticket {
    Ticket(|ts|, u, MaxNumber(ts, u) + 1, Open, question, None, None, now, None)
  }

  /** In a validly numbered table the largest number of a user is the user's ticket count. */
  lemma {:induction false} MaxIsCount(ts: seq<Ticket>, u: int)
    requires NumberedPerUser(ts)
    ensures MaxNumber(ts, u) == CountOf(ts, u)
    decreases |ts|
  {
    if ts != [] {
      var front := ts[..|ts| - 1];
      assert NumberedPerUser(front) by {
        forall i | 0 <= i < |front|
          ensures front[i].number == CountOf(front[..i], front[i].userId) + 1
        {
          assert front[..i] == ts[..i];
        }
      }
      MaxIsCount(front, u);
      assert ts[..|ts| - 1] == front;
    }
  }

  /** Creating a ticket keeps the numbering: the new ticket is the user's next one. */
  lemma CreateKeepsNumbering(ts: seq<Ticket>, u: int, question: string, now: Instant)
    requires Valid(ts)
    ensures Valid(ts + [Created(ts, u, question, now)])
    ensures Created(ts, u, question, now).number == CountOf(ts, u) + 1
  {
    MaxIsCount(ts, u);
    var t := Created(ts, u, question, now);
    var r := ts + [t];
    forall i | 0 <= i < |r|
      ensures r[i].number == CountOf(r[..i], r[i].userId) + 1
    {
      if i < |ts| {
        assert r[..i] == ts[..i];
      } else {
        assert r[..i] == ts;
      }
    }
  }

  /** Numbers never repeat within a user's tickets. */
  lemma {:induction false} NumbersDistinct(ts: seq<Ticket>, i: int, j: int)
    requires NumberedPerUser(ts) && 0 <= i < j < |ts| && ts[i].userId == ts[j].userId
    ensures ts[i].number < ts[j].number
  {
    CountGrows(ts[..j], i, ts[i].userId);
    assert ts[..j][..i] == ts[..i];
  }

  /** A prefix that ends past a user's ticket counts that ticket. */
  lemma {:induction false} CountGrows(ts: seq<Ticket>, i: int, u: int)
    requires 0 <= i < |ts| && ts[i].userId == u
    ensures CountOf(ts[..i], u) < CountOf(ts, u)
    decreases |ts|
  {
    var front := ts[..|ts| - 1];
    if i < |ts| - 1 {
      CountGrows(front, i, u);
      assert front[..i] == ts[..i];
    } else {
      assert ts[..i] == front;
    }
  }

  /** Closing with an optional reply: only an open ticket closes. */
  function Closing(ts: seq<Ticket>, id: int, admin: int, reply: Option<string>, now: Instant): (c: Option<Ticket>)
    requires IdsAreIndexes(ts)
    ensures c.Some? ==> 0 <= id < |ts| && c.value.id == id
  {
    if 0 <= id < |ts| && ts[id].status == Open then
      var t := ts[id];
      Some(t.(status := Closed, adminId := Some(admin),
              adminReply := if reply.Some? then reply else t.adminReply, closedAt := Some(now)))
    else None
  }

  /** The table after a close: the closed row replaced, or unchanged. */
  function AfterClose(ts: seq<Ticket>, closed: Option<Ticket>): seq<Ticket>
    requires IdsAreIndexes(ts)
    requires closed.Some? ==> 0 <= closed.value.id < |ts|
  {
    if closed.Some? then ts[closed.value.id := closed.value] else ts
  }

  /** A close touches one open row, closes it for good, and keeps the numbering;
      a second close of the same ticket does nothing. */
  lemma CloseFacts(ts: seq<Ticket>, id: int, admin: int, reply: Option<string>, now: Instant,
                   admin2: int, reply2: Option<string>, later: Instant)
    requires Valid(ts)
    ensures var c := Closing(ts, id, admin, reply, now);
      c.Some? <==> 0 <= id < |ts| && ts[id].status == Open
    ensures var c := Closing(ts, id, admin, reply, now);
      c.Some? ==> var r := AfterClose(ts, c);
        Valid(r) && |r| == |ts| && r[id].status == Closed && r[id].adminId == Some(admin)
        && r[id].question == ts[id].question && r[id].number == ts[id].number
        && (reply.Some? ==> r[id].adminReply == reply)
        && (forall k :: 0 <= k < |ts| && k != id ==> r[k] == ts[k])
        && Closing(r, id, admin2, reply2, later).None?
  {
    var c := Closing(ts, id, admin, reply, now);
    if c.Some? {
      var r := AfterClose(ts, c);
      forall i | 0 <= i < |r|
        ensures r[i].number == CountOf(r[..i], r[i].userId) + 1
      {
        SameUsersSameCount(r[..i], ts[..i], r[i].userId);
      }
    }
  }

  /** The counts only look at user ids. */
  lemma {:induction false} SameUsersSameCount(a: seq<Ticket>, b: seq<Ticket>, u: int)
    requires |a| == |b| && forall k :: 0 <= k < |a| ==> a[k].userId == b[k].userId
    ensures CountOf(a, u) == CountOf(b, u)
    decreases |a|
  {
    if a != [] {
      SameUsersSameCount(a[..|a| - 1], b[..|b| - 1], u);
    }
  }

  /** `max(1, int(limit or 20))` */
  function SafeLimit(limit: int): (n: nat)
    ensures n >= 1
    ensures limit >= 1 ==> n == limit
    ensures limit == 0 ==> n == DEFAULT_LIMIT
    ensures limit < 0 ==> n == 1
  {
    if limit == 0 then DEFAULT_LIMIT else Max(1, limit)
  }

  predicate Shown(t: Ticket, status: Option<TicketStatus>) {
    status.None? || t.status == status.value
  }

  /** The matching tickets newest first (ids grow with `created_at`), at most `n` of them. */
  function Newest(ts: seq<Ticket>, status: Option<TicketStatus>, n: nat): (r: seq<Ticket>)
    ensures |r| <= n
    ensures forall k :: 0 <= k < |r| ==> r[k] in ts && Shown(r[k], status)
    decreases |ts|
  {
    if ts == [] || n == 0 then []
    else
      var t := ts[|ts| - 1];
      if Shown(t, status) then [t] + Newest(ts[..|ts| - 1], status, n - 1)
      else Newest(ts[..|ts| - 1], status, n)
  }

  /** `list_tickets`: newest first, filtered by status when one is given. */
  function ListTickets(ts: seq<Ticket>, status: Option<TicketStatus>, limit: int): seq<Ticket> {
    Newest(ts, status, SafeLimit(limit))
  }

  /** How many tickets match. */
  function Matching(ts: seq<Ticket>, status: Option<TicketStatus>): nat
    decreases |ts|
  {
    if ts == [] then 0
    else Matching(ts[..|ts| - 1], status) + if Shown(ts[|ts| - 1], status) then 1 else 0
  }

  /** Every listed ticket is the table's row with its id. */
  lemma NewestFromTable(ts: seq<Ticket>, status: Option<TicketStatus>, n: nat)
    requires IdsAreIndexes(ts)
    ensures forall x :: x in Newest(ts, status, n) ==> 0 <= x.id < |ts| && ts[x.id] == x
  {
    forall x | x in Newest(ts, status, n)
      ensures 0 <= x.id < |ts| && ts[x.id] == x
    {
      var r := Newest(ts, status, n);
      var a :| 0 <= a < |r| && r[a] == x;
      var k :| 0 <= k < |ts| && ts[k] == x;
    }
  }

  /** A listing is as long as the limit and the matching tickets allow. */
  lemma {:induction false} NewestLength(ts: seq<Ticket>, status: Option<TicketStatus>, n: nat)
    ensures |Newest(ts, status, n)| == Min(n, Matching(ts, status))
    decreases |ts|
  {
    if ts != [] && n > 0 {
      NewestLength(ts[..|ts| - 1], status, if Shown(ts[|ts| - 1], status) then n - 1 else n);
    }
  }

  predicate Descending(r: seq<Ticket>) {
    forall a, b :: 0 <= a < b < |r| ==> r[a].id > r[b].id
  }

  /** A listing is newest first. */
  lemma {:induction false} NewestDescending(ts: seq<Ticket>, status: Option<TicketStatus>, n: nat)
    requires IdsAreIndexes(ts)
    ensures Descending(Newest(ts, status, n))
    decreases |ts|
  {
    if ts != [] && n > 0 {
      var front := ts[..|ts| - 1];
      var m: nat := if Shown(ts[|ts| - 1], status) then n - 1 else n;
      assert IdsAreIndexes(front);
      NewestDescending(front, status, m);
      NewestFromTable(front, status, m);
      var rest := Newest(front, status, m);
      if Shown(ts[|ts| - 1], status) {
        var r := [ts[|ts| - 1]] + rest;
        assert Newest(ts, status, n) == r;
        assert r[0].id == |ts| - 1;
        forall a, b | 0 <= a < b < |r|
          ensures r[a].id > r[b].id
        {
          assert r[b] == rest[b - 1] && rest[b - 1] in rest;
          assert r[b].id < |ts| - 1;
          if a > 0 {
            assert r[a] == rest[a - 1];
            assert rest[a - 1].id > rest[b - 1].id;
          }
        }
      }
    }
  }

  /** A listing skips no matching ticket newer than its oldest entry, and shows
      every matching ticket when it is shorter than the limit. */
  lemma {:induction false} NewestComplete(ts: seq<Ticket>, status: Option<TicketStatus>, n: nat, k: int)
    requires IdsAreIndexes(ts) && 0 <= k < |ts| && Shown(ts[k], status)
    ensures var r := Newest(ts, status, n);
      (|r| < n || (|r| > 0 && k > r[|r| - 1].id)) ==> ts[k] in r
    decreases |ts|
  {
    var r := Newest(ts, status, n);
    if n > 0 && k < |ts| - 1 {
      var front := ts[..|ts| - 1];
      var m := if Shown(ts[|ts| - 1], status) then n - 1 else n;
      var rest := Newest(front, status, m);
      NewestComplete(front, status, m, k);
      if Shown(ts[|ts| - 1], status) && rest == [] {
        assert r == [ts[|ts| - 1]];
      }
    }
  }

  // ------------------------------------------------------------ the objects

  /** The `support_tickets` table. */
  class SupportTicketsRepo {
    var tickets: seq<Ticket>

    constructor()
      ensures tickets == []
    {
      tickets := [];
    }

    /** `create` */
    method Create(u: int, question: string, now: Instant) returns (t: Ticket)
      modifies this
      ensures t == Created(old(tickets), u, question, now)
      ensures tickets == old(tickets) + [t]
    {
      t := Created(tickets, u, question, now);
      tickets := tickets + [t];
    }

    /** `get` */
    method Get(id: int) returns (t: Option<Ticket>)
      requires IdsAreIndexes(tickets)
      ensures t.Some? <==> 0 <= id < |tickets|
      ensures t.Some? ==> t.value == tickets[id]
    {
      t := if 0 <= id < |tickets| then Some(tickets[id]) else None;
    }

    /** `list_tickets` */
    method List(status: Option<TicketStatus>, limit: int) returns (rows: seq<Ticket>)
      ensures rows == ListTickets(tickets, status, limit)
    {
      rows := ListTickets(tickets, status, limit);
    }

    /** `close_with_reply` (a reply given) and `close` (none). */
    method Close(id: int, admin: int, reply: Option<string>, now: Instant) returns (t: Option<Ticket>)
      requires IdsAreIndexes(tickets)
      modifies this
      ensures t == Closing(old(tickets), id, admin, reply, now)
      ensures t.Some? ==> 0 <= t.value.id < |old(tickets)|
      ensures tickets == AfterClose(old(tickets), t)
    {
      t := Closing(tickets, id, admin, reply, now);
      if t.Some? {
        tickets := tickets[id := t.value];
      }
    }
  }

  /** What the service keeps of a text: trimmed, at most 2000 characters; None when blank. */
  function CleanText(text: string): (r: Option<string>)
    ensures r.None? <==> Trim(text) == []
    ensures r.Some? ==> |r.value| == Min(|Trim(text)|, MAX_TEXT) && r.value == Trim(text)[..|r.value|]
  {
    var t := Trim(text);
    if t == [] then None else Some(Take(t, MAX_TEXT))
  }

  /** The support service over one ticket table. */
  class SupportService {
    const repo: SupportTicketsRepo

    constructor(repo: SupportTicketsRepo)
      ensures this.repo == repo
    {
      this.repo := repo;
    }

    /** `create_ticket`: nothing for a blank question. */
    method CreateTicket(u: int, question: string, now: Instant) returns (t: Option<Ticket>)
      modifies repo
      ensures var q := CleanText(question);
        if q.None? then t.None? && repo.tickets == old(repo.tickets)
        else t == Some(Created(old(repo.tickets), u, q.value, now)) && repo.tickets == old(repo.tickets) + [t.value]
    {
      var q := CleanText(question);
      if q.None? {
        return None;
      }
      var created := repo.Create(u, q.value, now);
      t := Some(created);
    }

    method ListOpen(limit: int) returns (rows: seq<Ticket>)
      ensures rows == ListTickets(repo.tickets, Some(Open), limit)
    {
      rows := repo.List(Some(Open), limit);
    }

    method ListAll(limit: int) returns (rows: seq<Ticket>)
      ensures rows == ListTickets(repo.tickets, None, limit)
    {
      rows := repo.List(None, limit);
    }

    /** `reply_and_close`: nothing for a blank reply. */
    method ReplyAndClose(id: int, admin: int, reply: string, now: Instant) returns (t: Option<Ticket>)
      requires IdsAreIndexes(repo.tickets)
      modifies repo
      ensures var r := CleanText(reply);
        if r.None? then t.None? && repo.tickets == old(repo.tickets)
        else t == Closing(old(repo.tickets), id, admin, r, now) && repo.tickets == AfterClose(old(repo.tickets), t)
    {
      var r := CleanText(reply);
      if r.None? {
        return None;
      }
      t := repo.Close(id, admin, r, now);
    }

    /** `close`: closes without a reply. */
    method CloseTicket(id: int, admin: int, now: Instant) returns (t: Option<Ticket>)
      requires IdsAreIndexes(repo.tickets)
      modifies repo
      ensures t == Closing(old(repo.tickets), id, admin, None, now)
      ensures repo.tickets == AfterClose(old(repo.tickets), t)
    {
      t := repo.Close(id, admin, None, now);
    }
  }
}
