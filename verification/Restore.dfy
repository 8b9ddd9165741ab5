/** Rebuilding tool calls for the transcript from a stored preview and its ledger rows
    (`src/agent_loop/session.rs`). */
module Restore {
  import opened Text
  import opened Numbers
  import opened Conversation
  import opened MessageFormat

  /** A row of the tool-call ledger; `input` is the stored argument text. */
  datatype LedgerRow = LedgerRow(id: string, name: string, input: string)

  datatype RestoredCall = RestoredCall(call: ToolCall, ledger: Option<LedgerRow>)

  function CallOf(row: LedgerRow): ToolCall {
    ToolCall(row.id, row.name, row.input, None)
  }

  function SyntheticCall(messageId: string, index: nat, name: string): ToolCall {
    ToolCall("restored:" + messageId + ":" + Decimal(index), name, "{}", None)
  }

  // ---------------------------------------------------------------- the reference: ranks instead of removal

  /** The row of name `name` that has `rank` rows of that name before it. */
  function NthRow(rows: seq<LedgerRow>, name: string, rank: nat): (r: Option<LedgerRow>)
    ensures r.Some? ==> r.value.name == name
  {
    if |rows| == 0 then None
    else if rows[0].name != name then NthRow(rows[1..], name, rank)
    else if rank == 0 then Some(rows[0])
    else NthRow(rows[1..], name, rank - 1)
  }

  function CountRows(rows: seq<LedgerRow>, name: string): nat {
    if |rows| == 0 then 0 else (if rows[0].name == name then 1 else 0) + CountRows(rows[1..], name)
  }

  /** The rows left over once every name in `used` has taken the earliest row it could. */
  function Unused(rows: seq<LedgerRow>, used: multiset<string>): seq<LedgerRow> {
    if |rows| == 0 then []
    else if rows[0].name in used then Unused(rows[1..], used - multiset{rows[0].name})
    else [rows[0]] + Unused(rows[1..], used)
  }

  /** How often `names[index]` occurs before `index`. */
  function Rank(names: seq<string>, index: nat): nat
    requires index < |names|
  {
    multiset(names[..index])[names[index]]
  }

  /** `iter().position(...)`. */
  function PositionOf(rows: seq<LedgerRow>, name: string): (r: Option<nat>)
    ensures r.Some? ==>
      r.value < |rows| && rows[r.value].name == name && forall k :: 0 <= k < r.value ==> rows[k].name != name
    ensures r.None? ==> forall k :: 0 <= k < |rows| ==> rows[k].name != name
  {
    if |rows| == 0 then None
    else if rows[0].name == name then Some(0)
    else
      var tail := PositionOf(rows[1..], name);
      if tail.None? then None else Some(tail.value + 1)
  }

  function Remove(rows: seq<LedgerRow>, index: nat): seq<LedgerRow>
    requires index < |rows|
  {
    rows[..index] + rows[index + 1..]
  }

  function RemoveFirst(rows: seq<LedgerRow>, name: string): seq<LedgerRow> {
    if |rows| == 0 then [] else if rows[0].name == name then rows[1..] else [rows[0]] + RemoveFirst(rows[1..], name)
  }

  function First(rows: seq<LedgerRow>, name: string): Option<LedgerRow> {
    if |rows| == 0 then None else if rows[0].name == name then Some(rows[0]) else First(rows[1..], name)
  }

  lemma {:induction false} FirstAtPosition(rows: seq<LedgerRow>, name: string)
    ensures var p := PositionOf(rows, name);
      First(rows, name) == (if p.None? then None else Some(rows[p.value])) &&
      RemoveFirst(rows, name) == if p.None? then rows else Remove(rows, p.value)
  {
    if |rows| > 0 && rows[0].name != name {
      FirstAtPosition(rows[1..], name);
      var p := PositionOf(rows[1..], name);
      if p.Some? { assert Remove(rows, p.value + 1) == [rows[0]] + Remove(rows[1..], p.value); }
    }
  }

  /** Taking the first remaining row of a name is taking the row of the next rank. */
  lemma {:induction false} TakeNext(rows: seq<LedgerRow>, used: multiset<string>, name: string)
    ensures First(Unused(rows, used), name) == NthRow(rows, name, used[name])
    ensures RemoveFirst(Unused(rows, used), name) == Unused(rows, used + multiset{name})
    decreases |rows|
  {
    if |rows| > 0 {
      var row, tail := rows[0], rows[1..];
      if row.name in used {
        TakeNext(tail, used - multiset{row.name}, name);
        assert used + multiset{name} - multiset{row.name} == used - multiset{row.name} + multiset{name};
      } else {
        assert Unused(rows, used)[1..] == Unused(tail, used);
        if row.name == name {
          assert (used + multiset{name}) - multiset{name} == used;
        } else {
          TakeNext(tail, used, name);
        }
      }
    }
  }

  lemma {:induction false} NthRowNoneIff(rows: seq<LedgerRow>, name: string, rank: nat)
    ensures NthRow(rows, name, rank).None? <==> CountRows(rows, name) <= rank
  {
    if |rows| > 0 {
      if rows[0].name != name {
        NthRowNoneIff(rows[1..], name, rank);
      } else if rank > 0 {
        NthRowNoneIff(rows[1..], name, rank - 1);
      }
    }
  }

  // ---------------------------------------------------------------- the code

  /** The ledger rows the restored calls stand for. */
  function UsedRows(calls: seq<RestoredCall>): multiset<LedgerRow> {
    if |calls| == 0 then multiset{} else UsedRows(calls[..|calls| - 1]) + RowOf(calls[|calls| - 1])
  }

  function RowOf(c: RestoredCall): multiset<LedgerRow> {
    if c.ledger.Some? then multiset{c.ledger.value} else multiset{}
  }

  lemma UsedRowsSnoc(calls: seq<RestoredCall>, c: RestoredCall)
    ensures UsedRows(calls + [c]) == UsedRows(calls) + RowOf(c)
  {
    assert (calls + [c])[..|calls|] == calls;
  }

  lemma RemoveMultiset(rows: seq<LedgerRow>, index: nat)
    requires index < |rows|
    ensures multiset(rows) == multiset(Remove(rows, index)) + multiset{rows[index]}
  {
    assert rows == rows[..index] + [rows[index]] + rows[index + 1..];
  }

  /** The call restored for the preview name at `index`. */
  function RestoredName(messageId: string, names: seq<string>, rows: seq<LedgerRow>, index: nat): RestoredCall
    requires index < |names|
  {
    var row := NthRow(rows, names[index], Rank(names, index));
    RestoredCall(if row.Some? then CallOf(row.value) else SyntheticCall(messageId, index, names[index]), row)
  }

  function LedgerCall(row: LedgerRow): RestoredCall {
    RestoredCall(CallOf(row), Some(row))
  }

  function LedgerCalls(rows: seq<LedgerRow>): seq<RestoredCall> {
    if |rows| == 0 then [] else [LedgerCall(rows[0])] + LedgerCalls(rows[1..])
  }

  lemma {:induction false} UsedRowsOfLedgerCalls(calls: seq<RestoredCall>, rows: seq<LedgerRow>)
    ensures UsedRows(calls + LedgerCalls(rows)) == UsedRows(calls) + multiset(rows)
    decreases |rows|
  {
    hide UsedRows, CallOf;
    if |rows| == 0 {
      assert calls + LedgerCalls(rows) == calls;
    } else {
      var first, tail := LedgerCall(rows[0]), rows[1..];
      UsedRowsSnoc(calls, first);
      UsedRowsOfLedgerCalls(calls + [first], tail);
      assert calls + LedgerCalls(rows) == calls + [first] + LedgerCalls(tail);
      assert rows == [rows[0]] + tail;
    }
  }

  lemma RestoreStep(ledger: seq<LedgerRow>, names: seq<string>, index: nat, unmatched: seq<LedgerRow>)
    requires index < |names| && unmatched == Unused(ledger, multiset(names[..index]))
    ensures var p, row := PositionOf(unmatched, names[index]), NthRow(ledger, names[index], Rank(names, index));
      if p.None? then row.None? && Unused(ledger, multiset(names[..index + 1])) == unmatched
      else
        row == Some(unmatched[p.value]) && Unused(ledger, multiset(names[..index + 1])) == Remove(unmatched, p.value) &&
        multiset(unmatched) == multiset(Remove(unmatched, p.value)) + multiset{unmatched[p.value]}
  {
    hide Unused, NthRow, PositionOf, First, RemoveFirst;
    TakeNext(ledger, multiset(names[..index]), names[index]);
    FirstAtPosition(unmatched, names[index]);
    assert names[..index + 1] == names[..index] + [names[index]];
    var p := PositionOf(unmatched, names[index]);
    if p.Some? { RemoveMultiset(unmatched, p.value); }
  }

  /** First one call per preview name, in order, each on the next unused row of its name; then the unused
      rows. */
  function Restored(messageId: string, names: seq<string>, ledger: seq<LedgerRow>): seq<RestoredCall> {
    seq(|names|, i requires 0 <= i < |names| => RestoredName(messageId, names, ledger, i)) +
    LedgerCalls(Unused(ledger, multiset(names)))
  }

  /** The call at `index` has id, name and stored arguments of its row, or is made up from its preview name, with
      no arguments. */
  predicate IsRestored(messageId: string, names: seq<string>, index: nat, c: RestoredCall) {
    match c.ledger
    case Some(row) => c.call == ToolCall(row.id, row.name, row.input, None)
    case None =>
      index < |names| && c.call == ToolCall("restored:" + messageId + ":" + Decimal(index), names[index], "{}", None)
  }

  lemma RestoredAre(messageId: string, names: seq<string>, ledger: seq<LedgerRow>)
    ensures forall i :: 0 <= i < |Restored(messageId, names, ledger)| ==>
      IsRestored(messageId, names, i, Restored(messageId, names, ledger)[i])
  {
    hide NthRow, Rank, Unused, LedgerCalls;
    LedgerCallsAt(Unused(ledger, multiset(names)));
  }

  /** `restore_tool_calls`. Every ledger row is used exactly once. */
  method RestoreToolCalls(messageId: string, content: string, ledger: seq<LedgerRow>)
    returns (restored: seq<RestoredCall>)
    ensures restored == Restored(messageId, PreviewNames(content), ledger)
    ensures UsedRows(restored) == multiset(ledger)
    ensures forall i :: 0 <= i < |restored| ==> IsRestored(messageId, PreviewNames(content), i, restored[i])
  {
    hide PreviewNames, Unused, NthRow, PositionOf, UsedRows, SyntheticCall, Remove, Rank, IsRestored;
    var names := PreviewNames(content);
    var unmatched := ledger;
    restored := [];
    assert names[..0] == [];
    UnusedNothing(ledger);
    UsedRowsNothing();
    for index := 0 to |names|
      invariant |restored| == index
      invariant unmatched == Unused(ledger, multiset(names[..index]))
      invariant forall i :: 0 <= i < index ==> restored[i] == RestoredName(messageId, names, ledger, i)
      invariant UsedRows(restored) + multiset(unmatched) == multiset(ledger)
    {
      RestoreStep(ledger, names, index, unmatched);
      var found := PositionOf(unmatched, names[index]);
      var call;
      if found.Some? {
        call := RestoredCall(CallOf(unmatched[found.value]), Some(unmatched[found.value]));
        unmatched := Remove(unmatched, found.value);
      } else {
        call := RestoredCall(SyntheticCall(messageId, index, names[index]), None);
      }
      UsedRowsSnoc(restored, call);
      restored := restored + [call];
    }
    assert names[..|names|] == names;
    UsedRowsOfLedgerCalls(restored, unmatched);
    restored := restored + LedgerCalls(unmatched);
    RestoredAre(messageId, names, ledger);
  }

  lemma UnusedNothing(rows: seq<LedgerRow>)
    ensures Unused(rows, multiset([])) == rows
  {
  }

  lemma UsedRowsNothing()
    ensures UsedRows([]) == multiset{}
  {
  }

  /** A call is made up exactly when the rows of its name are used up by earlier preview names. */
  lemma SyntheticIff(messageId: string, names: seq<string>, ledger: seq<LedgerRow>, i: nat)
    requires i < |names|
    ensures RestoredName(messageId, names, ledger, i).ledger.None? <==> CountRows(ledger, names[i]) <= Rank(names, i)
    ensures RestoredName(messageId, names, ledger, i).call.name == names[i]
  {
    NthRowNoneIff(ledger, names[i], Rank(names, i));
  }

  // ---------------------------------------------------------------- a persisted phase comes back

  function RowNames(rows: seq<LedgerRow>): seq<string> {
    seq(|rows|, i requires 0 <= i < |rows| => rows[i].name)
  }

  lemma {:induction false} NthRowOfSelf(rows: seq<LedgerRow>, i: nat)
    requires i < |rows|
    ensures NthRow(rows, rows[i].name, Rank(RowNames(rows), i)) == Some(rows[i])
  {
    var names := RowNames(rows);
    if i == 0 {
      assert names[..0] == [];
    } else {
      var tail := rows[1..];
      NthRowOfSelf(tail, i - 1);
      assert names[..i] == [rows[0].name] + RowNames(tail)[..i - 1];
      assert multiset(names[..i]) == multiset{rows[0].name} + multiset(RowNames(tail)[..i - 1]);
    }
  }

  lemma {:induction false} UnusedOfPrefix(rows: seq<LedgerRow>, n: nat)
    requires n <= |rows|
    ensures Unused(rows, multiset(RowNames(rows)[..n])) == rows[n..]
  {
    if n == 0 {
      assert RowNames(rows)[..0] == [] && rows[0..] == rows;
      UnusedNothing(rows);
    } else {
      UnusedOfPrefix(rows[1..], n - 1);
      assert RowNames(rows)[..n] == [rows[0].name] + RowNames(rows[1..])[..n - 1];
      assert multiset(RowNames(rows)[..n]) - multiset{rows[0].name} == multiset(RowNames(rows[1..])[..n - 1]);
    }
  }

  lemma {:induction false} LedgerCallsAt(rows: seq<LedgerRow>)
    ensures |LedgerCalls(rows)| == |rows|
    ensures forall i :: 0 <= i < |rows| ==> LedgerCalls(rows)[i] == LedgerCall(rows[i])
  {
    if |rows| > 0 { LedgerCallsAt(rows[1..]); }
  }

  /** A ledger comes back call for call, in its order, with nothing made up, exactly when the preview names
      are the first names of the ledger. */
  lemma LedgerComesBackIff(messageId: string, names: seq<string>, ledger: seq<LedgerRow>)
    ensures Restored(messageId, names, ledger) == LedgerCalls(ledger) <==> names <= RowNames(ledger)
  {
    hide NthRow, Unused, LedgerCalls, SyntheticCall, Rank;
    var n, unused := |names|, Unused(ledger, multiset(names));
    LedgerCallsAt(ledger);
    LedgerCallsAt(unused);
    if Restored(messageId, names, ledger) == LedgerCalls(ledger) {
      assert n + |unused| == |ledger|;
      forall i | 0 <= i < n ensures names[i] == RowNames(ledger)[i] {
        assert Restored(messageId, names, ledger)[i] == LedgerCalls(ledger)[i];
      }
    }
    if names <= RowNames(ledger) {
      assert names == RowNames(ledger)[..n];
      UnusedOfPrefix(ledger, n);
      forall i | 0 <= i < n ensures RestoredName(messageId, names, ledger, i) == LedgerCall(ledger[i]) {
        NthRowOfSelf(ledger, i);
        RankOfPrefix(names, RowNames(ledger), i);
      }
      assert Restored(messageId, names, ledger) == LedgerCalls(ledger);
    }
  }

  lemma RankOfPrefix(names: seq<string>, all: seq<string>, i: nat)
    requires names <= all && i < |names|
    ensures Rank(names, i) == Rank(all, i) && names[i] == all[i]
  {
    assert names[..i] == all[..i];
  }

  /** So a phase whose calls all reached the ledger comes back from its printed preview, when its narration
      holds no marker and its names are trimmed, not empty and free of commas. */
  lemma PersistedPhaseRestores(messageId: string, content: string, ledger: seq<LedgerRow>)
    requires FindFrom(Trim(content), MARKER, 0).None? && ArePlainNames(RowNames(ledger))
    ensures Restored(messageId, PreviewNames(PreviewOf(content, RowNames(ledger))), ledger) == LedgerCalls(ledger)
  {
    hide PreviewNames, PreviewOf, Restored, LedgerCalls, FindFrom, ArePlainNames;
    NamesRoundTripIff(content, RowNames(ledger));
    LedgerComesBackIff(messageId, RowNames(ledger), ledger);
  }
}
