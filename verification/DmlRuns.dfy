/** The DML actions on top of the protocol: what they read can be written to, in every run of the DDL actions. */
module DmlRuns {
  import opened Wrappers
  import opened Schema
  import opened Protocol
  import opened Invariants
  import opened Objects
  import opened Ddl
  import opened DdlRuns
  import opened Dml

  /**
   * A table the DML statements are right for: INSERT and UPDATE list every column but the first, at least one, and
   * the first column, by which UPDATE and DELETE choose their rows, is exactly the primary key.
   */
  predicate Usable(table: Table) {
    && table.columns != []
    && Written(table.columns) == Names(table.columns[1..]) && |Written(table.columns)| >= 1
    && KeyNames(table.columns) == [table.columns[0].name]
  }

  lemma ShapedIsUsable(table: Table)
    requires WellShaped(table.columns)
    ensures Usable(table)
  {
    WrittenOfWellShaped(table.columns);
    PlainColumnsAddNoKey(table.columns);
  }

  /**
   * In every guarded run of the DDL actions, the table object that operator[] is about to return is one the DML
   * statements are right for; and it still is, with the same contents, after any further steps, so the statement may
   * be built long after the lock has been released.
   */
  lemma ReadersCanWrite(s: State, before: seq<Move>, b: nat, r: Ref, after: seq<Move>)
    requires Inv(s) && HeapValid(s) && Private(s) && AllShaped(s)
    requires GuardedRun(s, before) && DdlRun(s, before) && Runs(s, before)
    requires b < |Exec(s, before).agents| && Exec(s, before).agents[b].Reading?
    requires SlotOf(Exec(s, before), Exec(s, before).agents[b].slot) == Some(r)
    requires GuardedRun(Exec(s, before), after)
    ensures var t := Exec(s, before);
      && Runs(t, after) && r < |t.heap| && Usable(t.heap[r].body)
      && r < |Exec(t, after).heap| && Exec(t, after).heap[r] == t.heap[r]
  {
    var t := Exec(s, before);
    hide Inv, HeapValid, Private, GuardedRun, DdlRun, Runs, Exec, Usable;
    VisibleTablesAreWellShaped(s, before);
    RunInv(s, before);
    RunObjects(s, before);
    ListedIsPublished(t, t.agents[b].slot);
    PublishedIsImmutable(t, after, r);
    ShapedIsUsable(t.heap[r].body);
  }
}
