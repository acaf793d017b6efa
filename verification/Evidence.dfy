/** The bounded list of evidence rows one request records. */
module Evidence {
  import opened Config
  import opened Provenance

  const MAX_ROWS: nat := 16

  datatype Intent = Normal | NewEgress
  datatype SkipReason = UnknownEgress | TransportBuild | SlotFull
  datatype HealthDecision = NoHealth | Marked | Neutral
  datatype Decision = NoDecision | Fallback | Stop

  datatype Row = Row(
    skip: Option<SkipReason>,
    egress: Option<Id>,
    attempt: nat,
    intent: Option<Intent>,
    failure: Option<Failure>,
    health: HealthDecision,
    decision: Decision)

  function SkipRow(id: Id, intent: Intent, reason: SkipReason): Row {
    Row(Some(reason), Some(id), 0, Some(intent), None, NoHealth, NoDecision)
  }

  /** A failed dial as the client records it, before the executor knows what to make of it. */
  function BareRow(f: Failure): Row {
    Row(None, None, 0, None, Some(f), NoHealth, NoDecision)
  }

  function Identify(r: Row, id: Id, attempt: nat, intent: Intent): Row {
    r.(egress := Some(id), attempt := attempt, intent := Some(intent))
  }

  function Appended(rows: seq<Row>, r: Row): seq<Row> {
    if |rows| >= MAX_ROWS then rows else rows + [r]
  }

  class Recorder {
    var rows: seq<Row>
    var dropped: nat

    constructor ()
      ensures rows == [] && dropped == 0
    {
      rows, dropped := [], 0;
    }

    method Append(r: Row)
      modifies this
      ensures rows == Appended(old(rows), r)
      ensures dropped == old(dropped) + if |old(rows)| >= MAX_ROWS then 1 else 0
    {
      if |rows| >= MAX_ROWS {
        dropped := dropped + 1;
        return;
      }
      rows := rows + [r];
    }

    /** Fills in the identity of every row from `from` on. */
    method Annotate(from: nat, id: Id, attempt: nat, intent: Intent)
      modifies this`rows
      ensures |rows| == |old(rows)|
      ensures forall i | 0 <= i < |rows| ::
                rows[i] == if i < from then old(rows)[i] else Identify(old(rows)[i], id, attempt, intent)
    {
      if from > |rows| {
        return;
      }
      for i := from to |rows|
        invariant |rows| == |old(rows)|
        invariant forall k | 0 <= k < |rows| ::
                    rows[k] == if from <= k < i then Identify(old(rows)[k], id, attempt, intent) else old(rows)[k]
      {
        rows := rows[i := Identify(rows[i], id, attempt, intent)];
      }
    }

    /** Stamps the decisions of a failed attempt on its last row, or on nothing when the cap dropped it. */
    method Decide(start: nat, health: HealthDecision, decision: Decision) returns (at: int)
      modifies this`rows
      ensures at == if |old(rows)| - 1 < start then -1 else |old(rows)| - 1
      ensures rows == if at < 0 then old(rows)
                      else old(rows)[at := old(rows)[at].(health := health, decision := decision)]
    {
      var last := |rows| - 1;
      if last < start {
        return -1;
      }
      rows := rows[last := rows[last].(health := health, decision := decision)];
      return last;
    }

    /** Rewrites one row's decision; an index out of range is ignored. */
    method Correct(i: int, decision: Decision)
      modifies this`rows
      ensures rows == if 0 <= i < |old(rows)| then old(rows)[i := old(rows)[i].(decision := decision)] else old(rows)
    {
      if i < 0 || i >= |rows| {
        return;
      }
      rows := rows[i := rows[i].(decision := decision)];
    }
  }
}
