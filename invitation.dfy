/** The invitation table and the service operations on it: inviting,
    checking eligibility, revoking and marking an invitation used. */
module Invitation {
  import opened Wrappers
  import Mail

  /** A row; `inviter` is the `by` column. `invitedAt` is `None` (SQL null) until the invitee signs up. */
  datatype Invitation = Invitation(id: string, inviter: string, invitee: string, invitedAt: Option<string>)

  /** The table's constraints: `id` is the primary key and the pair
      (`invitee`, `by`) is unique. */
  ghost predicate Unique(rows: seq<Invitation>) {
    forall i, j :: 0 <= i < j < |rows| ==>
      rows[i].id != rows[j].id && !(rows[i].invitee == rows[j].invitee && rows[i].inviter == rows[j].inviter)
  }

  /** Inserting a row with this id, inviter and invitee would violate a constraint against `row`. */
  predicate Clashes(row: Invitation, id: string, inviter: string, invitee: string) {
    row.id == id || (row.invitee == invitee && row.inviter == inviter)
  }

  /** `findOne({invitee})`: the first row inviting `invitee`. */
  function FindByInvitee(rows: seq<Invitation>, invitee: string): (r: Option<Invitation>)
    ensures r.Some? ==> r.value in rows && r.value.invitee == invitee
    ensures r.None? ==> forall row :: row in rows ==> row.invitee != invitee
  {
    if |rows| == 0 then None
    else if rows[0].invitee == invitee then Some(rows[0])
    else FindByInvitee(rows[1..], invitee)
  }

  /** `nativeDelete(id)`: the table without the row whose primary key is `id`. */
  function RemoveId(rows: seq<Invitation>, id: string): (r: seq<Invitation>)
    ensures forall row :: row in r <==> row in rows && row.id != id
    ensures |r| <= |rows|
  {
    if |rows| == 0 then []
    else
      var rest := RemoveId(rows[1..], id);
      if rows[0].id == id then rest else [rows[0]] + rest
  }

  /** `nativeUpdate({invitee}, {invitedAt: now})`. */
  function MarkInvited(rows: seq<Invitation>, invitee: string, now: string): (r: seq<Invitation>)
    ensures |r| == |rows|
    ensures forall i :: 0 <= i < |rows| ==>
      r[i] == if rows[i].invitee == invitee then rows[i].(invitedAt := Some(now)) else rows[i]
  {
    seq(|rows|, i requires 0 <= i < |rows| =>
      if rows[i].invitee == invitee then rows[i].(invitedAt := Some(now)) else rows[i])
  }

  /** The invitation mail sent to a new invitee. */
  function InvitationMail(invitee: string, frontendUrl: string): (m: Mail.Message)
    ensures m.to == invitee
  {
    Mail.Message(invitee, "Sign Up Invitation for Orchestrator",
      "You are invited and able to sign up for Orchestrator Account on " + frontendUrl + "/signup")
  }

  /** Eligibility looks only at the invitee: whoever invited them, and
      whether the invitation was used already. */
  lemma EligibleIffInvited(rows: seq<Invitation>, invitee: string)
    ensures FindByInvitee(rows, invitee).Some? <==> exists row :: row in rows && row.invitee == invitee
  {
  }

  /** Marking an invitation used keeps every invitee eligible that was
      eligible before, and no one else: an invitation can be used again. */
  lemma {:induction false} MarkInvitedKeepsEligibility(rows: seq<Invitation>, invitee: string, now: string, who: string)
    ensures FindByInvitee(MarkInvited(rows, invitee, now), who).Some? == FindByInvitee(rows, who).Some?
  {
    var r := MarkInvited(rows, invitee, now);
    if FindByInvitee(rows, who).Some? {
      var row := FindByInvitee(rows, who).value;
      var i :| 0 <= i < |rows| && rows[i] == row;
      assert r[i].invitee == who && r[i] in r;
    } else {
      forall x | x in r ensures x.invitee != who {
        var i :| 0 <= i < |r| && r[i] == x;
        assert rows[i] in rows;
      }
    }
  }

  /** Marking keeps the constraints, since it changes no key column. */
  lemma MarkInvitedKeepsUnique(rows: seq<Invitation>, invitee: string, now: string)
    requires Unique(rows)
    ensures Unique(MarkInvited(rows, invitee, now))
  {
  }

  /** Revoking keeps the constraints. */
  lemma {:induction false} RemoveIdKeepsUnique(rows: seq<Invitation>, id: string)
    requires Unique(rows)
    ensures Unique(RemoveId(rows, id))
  {
    if |rows| > 0 {
      assert Unique(rows[1..]);
      RemoveIdKeepsUnique(rows[1..], id);
      var rest := RemoveId(rows[1..], id);
      if rows[0].id != id {
        var r := [rows[0]] + rest;
        forall j | 0 < j < |r|
          ensures r[0].id != r[j].id && !(r[0].invitee == r[j].invitee && r[0].inviter == r[j].inviter)
        {
          assert r[j] in rest;
          var k :| 1 <= k < |rows| && rows[k] == r[j];
        }
      }
    }
  }

  /** Revoking an id no row has leaves the table unchanged. */
  lemma {:induction false} RemoveMissingId(rows: seq<Invitation>, id: string)
    requires forall row :: row in rows ==> row.id != id
    ensures RemoveId(rows, id) == rows
  {
    if |rows| > 0 {
      RemoveMissingId(rows[1..], id);
      assert rows == [rows[0]] + rows[1..];
    }
  }

  /** Why an invitation could not be completed. */
  datatype InviteError = ConstraintViolation | MailFailed

  /** The invitation table behind the service. */
  class InvitationTable {
    var rows: seq<Invitation>

    ghost predicate Valid()
      reads this
    {
      Unique(rows)
    }

    constructor (rows: seq<Invitation>)
      requires Unique(rows)
      ensures this.rows == rows && Valid()
    {
      this.rows := rows;
    }

    /** `invite(invitee, by)`: stores a new row with the given fresh `id`
        (the random UUID is an input), then mails the invitee. A failing
        flush sends nothing; a failing mail leaves the row stored and the
        call rejected. */
    method Invite(invitee: string, inviter: string, id: string, frontendUrl: string, mailFails: bool)
      returns (r: Result<Invitation, InviteError>, sent: Option<Mail.Message>)
      requires Valid()
      modifies this
      ensures Valid()
      ensures (exists i :: 0 <= i < |old(rows)| && Clashes(old(rows)[i], id, inviter, invitee)) ==>
        r == Failure(ConstraintViolation) && sent == None && rows == old(rows)
      ensures (forall i :: 0 <= i < |old(rows)| ==> !Clashes(old(rows)[i], id, inviter, invitee)) ==>
        && rows == old(rows) + [Invitation(id, inviter, invitee, None)]
        && sent == Some(InvitationMail(invitee, frontendUrl))
        && r == if mailFails then Failure(MailFailed) else Success(Invitation(id, inviter, invitee, None))
    {
      if exists i :: 0 <= i < |rows| && Clashes(rows[i], id, inviter, invitee) {
        return Failure(ConstraintViolation), None;
      }
      var row := Invitation(id, inviter, invitee, None);
      rows := rows + [row];
      sent := Some(InvitationMail(invitee, frontendUrl));
      r := if mailFails then Failure(MailFailed) else Success(row);
    }

    /** `isEligible(invitee)`: some row invites `invitee`. */
    method IsEligible(invitee: string) returns (b: bool)
      ensures b <==> exists row :: row in rows && row.invitee == invitee
    {
      b := FindByInvitee(rows, invitee).Some?;
    }

    /** `revoke(id)`: deletes the row with that id, if any, and answers "ok". */
    method Revoke(id: string) returns (message: string)
      requires Valid()
      modifies this
      ensures Valid()
      ensures rows == RemoveId(old(rows), id)
      ensures message == "ok"
    {
      RemoveIdKeepsUnique(rows, id);
      rows := RemoveId(rows, id);
      message := "ok";
    }

    /** `invited(invitee)`: stamps every row of `invitee` with the time
        `now`. A failing transaction changes nothing and rejects. */
    method Invited(invitee: string, now: string, fails: bool) returns (r: Result<string, ()>)
      requires Valid()
      modifies this
      ensures Valid()
      ensures fails ==> r.Failure? && rows == old(rows)
      ensures !fails ==> r == Success("ok") && rows == MarkInvited(old(rows), invitee, now)
    {
      if fails {
        return Failure(());
      }
      MarkInvitedKeepsUnique(rows, invitee, now);
      rows := MarkInvited(rows, invitee, now);
      r := Success("ok");
    }
  }
}
