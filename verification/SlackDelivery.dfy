/** What one delivery of a Slack notification does, from its plan to its outcome. */
module SlackDelivery {
  import opened Wrappers
  import opened Json
  import opened Submission
  import opened SlackOutbox

  /** The digest of a message tells messages apart. */
  lemma DigestTellsApart(m: Message, n: Message)
    ensures Digest(m) == Digest(n) <==> m == n
  {
    var a, b := Digest(m).content.value.fields, Digest(n).content.value.fields;
    if Digest(m) == Digest(n) {
      assert a["channel"] == b["channel"] && a["task"] == b["task"] && a["body"] == b["body"];
    }
  }

  /** A new message is planned exactly for an allowed channel and a task and approval that match. */
  lemma PlanIff(rows: Rows, allowed: set<string>, key: Key, m: Message, correlated: bool, id: nat, now: int)
    requires key !in rows
    ensures var r := SlackOutbox.Plan(rows, allowed, key, m, correlated, id, now);
      && (r.Success? <==> m.channel in allowed && correlated)
      && (r.Success? ==>
            && key in r.value && r.value == rows[key := r.value[key]]
            && r.value[key].message == m && r.value[key].sha == Digest(m) && r.value[key].id == id
            && r.value[key].status == Planned && r.value[key].createdAt == now / 1000)
  {
  }

  /** A key that is taken names the same message, to the letter, or the plan is refused. */
  lemma PlanAgainIff(rows: Rows, allowed: set<string>, key: Key, m: Message, correlated: bool, id: nat, now: int)
    requires key in rows && rows[key].sha == Digest(rows[key].message) && m.channel in allowed
    ensures SlackOutbox.Plan(rows, allowed, key, m, correlated, id, now)
         == if m == rows[key].message then Success(rows) else Failure(DedupeConflict)
  {
    DigestTellsApart(m, rows[key].message);
  }

  /** The row that is delivered next: planned, and no planned row is older, or as old with a smaller number. */
  lemma OldestMeans(rows: Rows, key: Key)
    ensures Oldest(rows, key) <==>
      && key in rows && rows[key].status == Planned
      && !(exists o :: o in rows && rows[o].status == Planned && rows[o].createdAt < rows[key].createdAt)
      && !(exists o :: o in rows && rows[o].status == Planned && rows[o].createdAt == rows[key].createdAt
                       && rows[o].id < rows[key].id)
  {
  }

  /** Held by this owner for sixty seconds, and recoverable exactly afterwards. */
  ghost predicate HeldFor(row: SlackOutbox.Row, owner: Owner, now: int) {
    && row.status == Executing && row.owner == Some(owner)
    && forall t :: Abandoned(row, t) <==> t / 1000 >= now / 1000 + 60_000
  }

  /** A row is taken exactly if its message is untampered and its channel still allowed. */
  lemma TakeIff(rows: Rows, allowed: set<string>, key: Key, owner: Owner, now: int)
    requires key in rows
    ensures var r := Take(rows, allowed, key, owner, now);
      && (r.Success? <==> Digest(rows[key].message) == rows[key].sha && rows[key].message.channel in allowed)
      && (r.Success? ==>
            && key in r.value && r.value == rows[key := r.value[key]] && HeldFor(r.value[key], owner, now)
            && r.value[key].message == rows[key].message && r.value[key].receipt == rows[key].receipt)
  {
  }

  /** How a delivery ends: confirmed on the message's own channel, failed if surely not posted, else unknown. */
  function Ending(m: Message, outcome: SlackOutbox.Outcome): ActionStatus {
    if outcome.Posted? && outcome.channel == m.channel then Succeeded
    else if outcome.Refused? && !outcome.unknown then Failed
    else UnknownResult
  }

  /** The holder's outcome is written, with Slack's receipt if it was posted; anyone else's is not. */
  lemma FinishMeans(rows: Rows, key: Key, owner: Owner, outcome: SlackOutbox.Outcome)
    requires key in rows
    ensures var rows2, row := Finish(rows, key, owner, outcome), rows[key];
      && key in rows2 && rows2 == rows[key := rows2[key]]
      && (if row.status == Executing && row.owner == Some(owner) then
            && rows2[key].status == Ending(row.message, outcome) && rows2[key].message == row.message
            && (Ending(row.message, outcome) == Succeeded ==> rows2[key].receipt == Some(outcome.ts))
            && (Ending(row.message, outcome) != Succeeded ==> rows2[key].receipt == row.receipt)
          else rows2[key] == row)
  {
  }

  /** From the plan to the outcome: what is posted is the planned message, and its row ends as the adapter says. */
  lemma DeliveryEnds(rows: Rows, allowed: set<string>, key: Key, m: Message, id: nat, owner: Owner,
      outcome: SlackOutbox.Outcome, now: int, later: int)
    requires key !in rows && m.channel in allowed
    ensures var planned := SlackOutbox.Plan(rows, allowed, key, m, true, id, now);
      && planned.Success? && key in planned.value
      && var taken := Take(planned.value, allowed, key, owner, later);
         && taken.Success? && key in taken.value
         && var ended := Finish(taken.value, key, owner, outcome);
            key in ended && ended[key].message == m && ended[key].status == Ending(m, outcome)
  {
    PlanIff(rows, allowed, key, m, true, id, now);
    hide Digest;
  }

  /** Recovery takes exactly the rows that were held for too long; their outcome is unknown. */
  lemma RecoveryMeans(rows: Rows, now: int)
    ensures var rows2 := SlackOutbox.Recover(rows, now);
      && rows2.Keys == rows.Keys
      && forall key :: key in rows ==>
           rows2[key] == if rows[key].status == Executing && rows[key].expiresAt * 1000 <= now
                         then rows[key].(status := UnknownResult) else rows[key]
  {
  }
}
