/**
 * The import log (TblHistoriqueImport): `param_import` appends one entry per
 * accepted import, and the location synchronisation later settles the
 * entries it left pending.
 *
 * The timestamp column (`CURRENT_TIMESTAMP()`) is not modelled.
 */
module History {
  import opened Wrappers

  /** The `Resultat` an entry carries while the location synchronisation has not finished. */
  const Pending: string := "En cours (thread)"
  const Succeeded: string := "Succès"
  const Failed: string := "Erreur"

  /** One row of the log: NomTable, Utilisateur, Resultat, DetailErreur, NombreLignes, NomFichier. */
  datatype Entry = Entry(table: string, user: string, result: string, detail: Option<string>, lines: int, file: string)

  /** How a synchronisation ended: the number of cleaned rows, or the text of the exception. */
  datatype Outcome = Synced(lines: nat) | Crashed(message: string)

  /** The `WHERE` clause of both closing updates. */
  predicate Awaits(e: Entry, file: string) {
    e.file == file && e.result == Pending
  }

  /** The entry after the closing `UPDATE`: only a pending entry of the file changes. */
  function Settled(e: Entry, file: string, outcome: Outcome): (r: Entry)
    ensures !Awaits(e, file) ==> r == e
    ensures Awaits(e, file) && outcome.Synced? ==>
      r == e.(result := Succeeded, detail := None, lines := outcome.lines)
    ensures Awaits(e, file) && outcome.Crashed? ==>
      r == e.(result := Failed, detail := Some(outcome.message))
  {
    if !Awaits(e, file) then e
    else match outcome
      case Synced(n) => e.(result := Succeeded, detail := None, lines := n)
      case Crashed(m) => e.(result := Failed, detail := Some(m))
  }

  /** A settled entry no longer awaits its file, and its table, user and file are kept. */
  lemma SettledNoLongerAwaits(e: Entry, file: string, outcome: Outcome)
    ensures !Awaits(Settled(e, file, outcome), file)
    ensures Settled(e, file, outcome).table == e.table
    ensures Settled(e, file, outcome).user == e.user
    ensures Settled(e, file, outcome).file == e.file
  {
  }

  /** Settling twice for the same file changes nothing more, whatever the second outcome. */
  lemma SettleOnce(e: Entry, file: string, first: Outcome, second: Outcome)
    ensures Settled(Settled(e, file, first), file, second) == Settled(e, file, first)
  {
    SettledNoLongerAwaits(e, file, first);
  }

  /** Every entry of the log after the closing `UPDATE`. */
  function SettledAll(entries: seq<Entry>, file: string, outcome: Outcome): (r: seq<Entry>)
    ensures |r| == |entries|
    ensures forall i | 0 <= i < |r| :: r[i] == Settled(entries[i], file, outcome)
  {
    seq(|entries|, i requires 0 <= i < |entries| => Settled(entries[i], file, outcome))
  }

  /** After the closing `UPDATE` no entry of the file is left pending. */
  lemma SettledAllDone(entries: seq<Entry>, file: string, outcome: Outcome)
    ensures forall i | 0 <= i < |entries| :: !Awaits(SettledAll(entries, file, outcome)[i], file)
  {
    forall i | 0 <= i < |entries| ensures !Awaits(SettledAll(entries, file, outcome)[i], file) {
      SettledNoLongerAwaits(entries[i], file, outcome);
    }
  }

  /** The log table. */
  class ImportLog {
    var entries: seq<Entry>

    constructor()
      ensures entries == []
    {
      entries := [];
    }

    /** The `INSERT INTO TblHistoriqueImport`. */
    method Record(e: Entry)
      modifies this
      ensures entries == old(entries) + [e]
    {
      entries := entries + [e];
    }

    /** The closing `UPDATE ... WHERE NomFichier = @fichier AND Resultat = 'En cours (thread)'`, row by row. */
    method Settle(file: string, outcome: Outcome)
      modifies this
      ensures entries == SettledAll(old(entries), file, outcome)
    {
      var before := entries;
      var after: seq<Entry> := [];
      for i := 0 to |before|
        invariant |after| == i
        invariant forall k | 0 <= k < i :: after[k] == Settled(before[k], file, outcome)
      {
        after := after + [Settled(before[i], file, outcome)];
      }
      entries := after;
    }
  }
}
