/** The support-ticket table: per-guild ticket numbering, open and close, the active-ticket check,
    the per-guild statistics and the stored panel message. Ticket ids are the autoincrement row
    ids: the ticket at position i of the table has id i + 1, since rows are never deleted. */
module TicketDatabase {
  import opened Wrappers

  datatype Ticket = Ticket(number: int, userId: string, discordId: string, guild: string, channel: string,
                           status: string, subject: Option<string>, closedBy: Option<string>)

  datatype Panel = Panel(channel: string, message: string)

  datatype TicketStats = TicketStats(total: nat, active: nat, closed: nat)

  /** MAX(ticket_number) over the guild's tickets, None when it has none. */
  function MaxNumber(tickets: seq<Ticket>, guild: string): (m: Option<int>)
    ensures m.None? <==> forall i :: 0 <= i < |tickets| ==> tickets[i].guild != guild
    ensures m.Some? ==> forall i :: 0 <= i < |tickets| && tickets[i].guild == guild ==> tickets[i].number <= m.value
    ensures m.Some? ==> exists i :: 0 <= i < |tickets| && tickets[i].guild == guild && tickets[i].number == m.value
  {
    if tickets == [] then None
    else
      var rest := MaxNumber(tickets[..|tickets| - 1], guild);
      var last := tickets[|tickets| - 1];
      if last.guild != guild then rest
      else if rest.None? || rest.value < last.number then Some(last.number)
      else rest
  }

  /** get_next_ticket_number: one more than the guild's largest number, where a missing (or
      zero) maximum counts as 0. */
  function NextNumber(tickets: seq<Ticket>, guild: string): (n: int)
    ensures forall i :: 0 <= i < |tickets| && tickets[i].guild == guild ==> tickets[i].number < n
    ensures (forall i :: 0 <= i < |tickets| ==> tickets[i].guild != guild) ==> n == 1
    ensures (exists i :: 0 <= i < |tickets| && tickets[i].guild == guild && tickets[i].number == n - 1)
            || n == 1
  {
    var m := MaxNumber(tickets, guild);
    (if m.Some? && m.value != 0 then m.value else 0) + 1
  }

  /** The number of the guild's tickets, or of those with the given status. */
  function Count(tickets: seq<Ticket>, guild: string, status: Option<string>): nat
  {
    if tickets == [] then 0
    else
      var last := tickets[|tickets| - 1];
      Count(tickets[..|tickets| - 1], guild, status) + (if Matches(last, guild, status) then 1 else 0)
  }

  predicate Matches(t: Ticket, guild: string, status: Option<string>)
  {
    t.guild == guild && (status.None? || t.status == status.value)
  }

  /** The open tickets of a user in a guild. */
  function OpenCount(tickets: seq<Ticket>, userId: string, guild: string): nat
  {
    if tickets == [] then 0
    else
      var last := tickets[|tickets| - 1];
      OpenCount(tickets[..|tickets| - 1], userId, guild)
        + (if last.userId == userId && last.guild == guild && last.status == "open" then 1 else 0)
  }

  lemma {:induction false} OpenCountPositive(tickets: seq<Ticket>, userId: string, guild: string)
    ensures OpenCount(tickets, userId, guild) > 0 <==>
      exists i :: 0 <= i < |tickets| && tickets[i].userId == userId && tickets[i].guild == guild && tickets[i].status == "open"
  {
    if tickets != [] {
      var init := tickets[..|tickets| - 1];
      OpenCountPositive(init, userId, guild);
      if exists i :: 0 <= i < |init| && init[i].userId == userId && init[i].guild == guild && init[i].status == "open" {
        var i :| 0 <= i < |init| && init[i].userId == userId && init[i].guild == guild && init[i].status == "open";
        assert tickets[i] == init[i];
      }
    }
  }

  /** Every status the table holds is open or closed. */
  ghost predicate StatusesKnown(tickets: seq<Ticket>)
  {
    forall i :: 0 <= i < |tickets| ==> tickets[i].status in {"open", "closed"}
  }

  /** Each of the guild's tickets is open or closed, so the two counts add up to the total. */
  lemma {:induction false} OpenPlusClosedIsTotal(tickets: seq<Ticket>, guild: string)
    requires StatusesKnown(tickets)
    ensures Count(tickets, guild, Some("open")) + Count(tickets, guild, Some("closed")) == Count(tickets, guild, None)
  {
    if tickets != [] {
      var init := tickets[..|tickets| - 1];
      assert StatusesKnown(init) by {
        forall i | 0 <= i < |init| ensures init[i].status in {"open", "closed"} {
          assert init[i] == tickets[i];
        }
      }
      OpenPlusClosedIsTotal(init, guild);
    }
  }

  /** Replacing one ticket changes each count by what the old and new ticket contribute. */
  lemma {:induction false} CountAfterUpdate(tickets: seq<Ticket>, k: nat, t: Ticket, guild: string, status: Option<string>)
    requires k < |tickets|
    ensures Count(tickets[k := t], guild, status)
            == Count(tickets, guild, status) - (if Matches(tickets[k], guild, status) then 1 else 0)
               + (if Matches(t, guild, status) then 1 else 0)
  {
    var n := |tickets|;
    var after := tickets[k := t];
    if k == n - 1 {
      assert after[..n - 1] == tickets[..n - 1];
    } else {
      assert after[..n - 1] == tickets[..n - 1][k := t];
      CountAfterUpdate(tickets[..n - 1], k, t, guild, status);
    }
  }

  /** Whether close_ticket's UPDATE matches a row. */
  predicate CanClose(tickets: seq<Ticket>, ticketId: int)
  {
    1 <= ticketId <= |tickets| && tickets[ticketId - 1].status == "open"
  }

  /** The table after closing the ticket with that id. */
  function ClosedAt(tickets: seq<Ticket>, ticketId: int, closedBy: string): (r: seq<Ticket>)
    requires 1 <= ticketId <= |tickets|
    ensures |r| == |tickets| && r[ticketId - 1].status == "closed"
    ensures forall i :: 0 <= i < |tickets| && i != ticketId - 1 ==> r[i] == tickets[i]
  {
    tickets[ticketId - 1 := tickets[ticketId - 1].(status := "closed", closedBy := Some(closedBy))]
  }

  /** A closed ticket cannot be closed again. */
  lemma CloseIsFinal(tickets: seq<Ticket>, ticketId: int, closedBy: string)
    requires CanClose(tickets, ticketId)
    ensures !CanClose(ClosedAt(tickets, ticketId, closedBy), ticketId)
  {
  }

  /** Closing moves one ticket of its guild from the open count to the closed count, and the
      total stays the same. */
  lemma CloseMovesOneTicket(tickets: seq<Ticket>, ticketId: int, closedBy: string)
    requires CanClose(tickets, ticketId)
    ensures var g := tickets[ticketId - 1].guild; var after := ClosedAt(tickets, ticketId, closedBy);
      Count(after, g, Some("open")) == Count(tickets, g, Some("open")) - 1
      && Count(after, g, Some("closed")) == Count(tickets, g, Some("closed")) + 1
      && Count(after, g, None) == Count(tickets, g, None)
  {
    var t := tickets[ticketId - 1];
    var t' := t.(status := "closed", closedBy := Some(closedBy));
    CountAfterUpdate(tickets, ticketId - 1, t', t.guild, Some("open"));
    CountAfterUpdate(tickets, ticketId - 1, t', t.guild, Some("closed"));
    CountAfterUpdate(tickets, ticketId - 1, t', t.guild, None);
  }

  class TicketStore {
    var tickets: seq<Ticket>
    var panels: map<string, Panel>

    ghost predicate Valid()
      reads this
    {
      StatusesKnown(tickets)
    }

    constructor ()
      ensures tickets == [] && panels == map[] && Valid()
    {
      tickets, panels := [], map[];
    }

    function GetNextTicketNumber(guild: string): (n: int)
      reads this
      ensures forall i :: 0 <= i < |tickets| && tickets[i].guild == guild ==> tickets[i].number < n
    {
      NextNumber(tickets, guild)
    }

    /** create_ticket: a new open ticket; its id is returned. */
    method CreateTicket(userId: string, discordId: string, guild: string, channel: string, number: int,
                        subject: Option<string>) returns (ticketId: int)
      requires Valid()
      modifies this
      ensures Valid()
      ensures tickets == old(tickets) + [Ticket(number, userId, discordId, guild, channel, "open", subject, None)]
      ensures ticketId == |tickets| && tickets[ticketId - 1].status == "open"
      ensures panels == old(panels)
    {
      tickets := tickets + [Ticket(number, userId, discordId, guild, channel, "open", subject, None)];
      ticketId := |tickets|;
    }

    /** close_ticket: only an open ticket is closed; True iff one was. */
    method CloseTicket(ticketId: int, closedBy: string) returns (updated: bool)
      requires Valid()
      modifies this
      ensures Valid()
      ensures updated <==> CanClose(old(tickets), ticketId)
      ensures updated ==> tickets == ClosedAt(old(tickets), ticketId, closedBy)
      ensures !updated ==> tickets == old(tickets)
      ensures panels == old(panels)
    {
      if CanClose(tickets, ticketId) {
        tickets := ClosedAt(tickets, ticketId, closedBy);
        updated := true;
      } else {
        updated := false;
      }
    }

    /** has_active_ticket: the user has an open ticket in the guild. */
    function HasActiveTicket(userId: string, guild: string): (r: bool)
      reads this
      ensures r <==> exists i :: 0 <= i < |tickets| && tickets[i].userId == userId && tickets[i].guild == guild
                                 && tickets[i].status == "open"
    {
      OpenCountPositive(tickets, userId, guild);
      OpenCount(tickets, userId, guild) > 0
    }

    /** get_ticket_stats: the guild's total, open and closed counts, which add up. */
    function GetTicketStats(guild: string): (s: TicketStats)
      requires Valid()
      reads this
      ensures s.total == Count(tickets, guild, None)
      ensures s.active == Count(tickets, guild, Some("open")) && s.closed == Count(tickets, guild, Some("closed"))
      ensures s.active + s.closed == s.total
    {
      OpenPlusClosedIsTotal(tickets, guild);
      TicketStats(Count(tickets, guild, None), Count(tickets, guild, Some("open")), Count(tickets, guild, Some("closed")))
    }

    /** set_ticket_panel_message_id: INSERT OR REPLACE keyed by guild. */
    method SetTicketPanelMessageId(guild: string, channel: string, message: string)
      modifies this
      ensures panels == old(panels)[guild := Panel(channel, message)]
      ensures tickets == old(tickets)
    {
      panels := panels[guild := Panel(channel, message)];
    }

    /** get_ticket_panel_message_id: the last panel stored for the guild, or None. */
    function GetTicketPanelMessageId(guild: string): (r: Option<Panel>)
      reads this
      ensures r.Some? <==> guild in panels
      ensures r.Some? ==> r.value == panels[guild]
    {
      if guild in panels then Some(panels[guild]) else None
    }
  }

  /** Each create_ticket numbered with get_next_ticket_number gets a number no earlier ticket of
      the guild has. */
  lemma NextNumberIsFresh(tickets: seq<Ticket>, guild: string, i: int)
    requires 0 <= i < |tickets| && tickets[i].guild == guild
    ensures tickets[i].number != NextNumber(tickets, guild)
  {
  }

  /** Tickets numbered this way count up from 1 within each guild: after a ticket numbered with
      the next number is added, the next number is one more. */
  lemma {:induction false} NumbersCountUp(tickets: seq<Ticket>, guild: string, t: Ticket)
    requires t.guild == guild && t.number == NextNumber(tickets, guild)
    requires forall i :: 0 <= i < |tickets| && tickets[i].guild == guild ==> tickets[i].number >= 1
    ensures NextNumber(tickets + [t], guild) == t.number + 1
  {
    var after := tickets + [t];
    assert after[..|after| - 1] == tickets;
    var m := MaxNumber(tickets, guild);
    if m.Some? {
      var i :| 0 <= i < |tickets| && tickets[i].guild == guild && tickets[i].number == m.value;
    }
  }
}
