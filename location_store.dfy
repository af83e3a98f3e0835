/**
 * The location table as the application changes it in place: the MERGE of
 * an imported batch, and the two bulk-update endpoints of
 * detail_emplacement.py (`api_update_detail_emplacement` and
 * `api_update_coords`) with the replies they send.
 */
module LocationStore {
  import opened Wrappers
  import opened Values
  import opened Importer
  import opened Locations
  import opened BulkRequests

  const NoData: string := "Aucune donnée reçue."
  const NothingToUpdate: string := "Aucun champ à mettre à jour."

  /** Why an update answers 500: a key `int()` rejected breaks the query, and a location matched twice breaks the UPDATE. */
  datatype ServerCause = UnparsableKey | AmbiguousUpdate

  /** The JSON reply: a 400 with its message, a 500, or success with the number of entries sent. */
  datatype Reply = BadRequest(message: string) | ServerError(cause: ServerCause) | Success(count: nat)

  /** A reply together with the table it leaves behind. */
  datatype Handled = Handled(reply: Reply, table: seq<Row>)

  /** The `UNNEST` list of the detail update. */
  function DetailRows(changes: seq<Object>, parse: FloatParser): (rows: seq<Row>)
    ensures |rows| == |changes|
  {
    seq(|changes|, i requires 0 <= i < |changes| => DetailRow(changes[i], parse))
  }

  /** `api_update_detail_emplacement`: what it answers and the table afterwards. */
  function DetailUpdate(table: seq<Row>, changes: seq<Object>, parse: FloatParser): Handled {
    if changes == [] then Handled(BadRequest(NoData), table)
    else match BulkUpdate(table, DetailRows(changes, parse), DetailSets)
      case Err(_) => Handled(ServerError(AmbiguousUpdate), table)
      case Ok(u) => Handled(Success(|changes|), u)
  }

  /** `api_update_coords`: what it answers and the table afterwards. */
  function CoordUpdate(table: seq<Row>, req: Object, coords: seq<Object>, parse: FloatParser): Handled {
    if coords == [] then Handled(BadRequest(NoData), table)
    else
      var sets := CoordSets(ReadCoordRequest(req, coords, parse));
      if sets == map[] then Handled(BadRequest(NothingToUpdate), table)
      else match CoordRows(coords, parse)
        case None => Handled(ServerError(UnparsableKey), table)
        case Some(news) =>
          match BulkUpdate(table, news, sets)
          case Err(_) => Handled(ServerError(AmbiguousUpdate), table)
          case Ok(u) => Handled(Success(|coords|), u)
  }

  /** A successful bulk update leaves every column outside its `SET` list as it was, in every location. */
  lemma BulkUpdateKeepsUnlisted(table: seq<Row>, news: seq<Row>, sets: SetList)
    requires BulkUpdate(table, news, sets).Ok?
    ensures forall i, c | 0 <= i < |table| && c !in sets :: Get(BulkUpdate(table, news, sets).value[i], c) == Get(table[i], c)
  {
    var u := BulkUpdate(table, news, sets).value;
    BulkUpdateRows(table, news, sets);
    BulkUpdateMeaning(table, news, sets);
    forall i, c | 0 <= i < |table| && c !in sets ensures Get(u[i], c) == Get(table[i], c) {
      if n :| n in news && Targets(n, table[i]) {
        assert Get(u[i], c) == Get(table[i], c);
      }
    }
  }

  /**
   * The detail update refuses an empty change list; it changes the table only
   * when it succeeds, and then never a column outside the editable ones.
   */
  lemma DetailUpdateMeaning(table: seq<Row>, changes: seq<Object>, parse: FloatParser)
    ensures var h := DetailUpdate(table, changes, parse);
      && (changes == [] ==> h.reply == BadRequest(NoData))
      && (!h.reply.Success? ==> h.table == table)
      && (h.reply.Success? ==> h.reply.count == |changes| && |h.table| == |table|)
      && (h.reply.Success? ==> forall i, c | 0 <= i < |table| && c !in Editable :: Get(h.table[i], c) == Get(table[i], c))
  {
    var h := DetailUpdate(table, changes, parse);
    if h.reply.Success? {
      var news := DetailRows(changes, parse);
      BulkUpdateRows(table, news, DetailSets);
      BulkUpdateKeepsUnlisted(table, news, DetailSets);
      assert forall c | c !in Editable :: c !in DetailSets;
    }
  }

  /** A location a change targets takes each editable column from that change, unless the change leaves it NULL. */
  lemma DetailUpdateTargeted(table: seq<Row>, changes: seq<Object>, parse: FloatParser, i: nat, k: nat, c: Column)
    requires DetailUpdate(table, changes, parse).reply.Success?
    requires i < |table| && k < |changes| && c in Editable
    requires Targets(DetailRow(changes[k], parse), table[i])
    ensures var n := DetailRow(changes[k], parse);
      Get(DetailUpdate(table, changes, parse).table[i], c) == (if Get(n, c).Null? then Get(table[i], c) else Get(n, c))
  {
    var news := DetailRows(changes, parse);
    assert news[k] in news;
    assert DetailSets[c] == FromStaged;
    BulkUpdateMeaning(table, news, DetailSets);
  }

  /**
   * The coordinate update refuses an empty entry list and an empty `SET`
   * list with their own messages, answers 500 on a key `int()` rejects; it
   * changes the table only when it succeeds, and then never a column its
   * `SET` list leaves out.
   */
  lemma CoordUpdateMeaning(table: seq<Row>, req: Object, coords: seq<Object>, parse: FloatParser)
    ensures var h := CoordUpdate(table, req, coords, parse);
      var sets := CoordSets(ReadCoordRequest(req, coords, parse));
      && (coords == [] ==> h.reply == BadRequest(NoData))
      && (coords != [] && sets == map[] ==> h.reply == BadRequest(NothingToUpdate))
      && (coords != [] && sets != map[] && CoordRows(coords, parse).None? ==> h.reply == ServerError(UnparsableKey))
      && (!h.reply.Success? ==> h.table == table)
      && (h.reply.Success? ==> h.reply.count == |coords| && |h.table| == |table|)
      && (h.reply.Success? ==> forall i, c | 0 <= i < |table| && c !in sets :: Get(h.table[i], c) == Get(table[i], c))
  {
    var h := CoordUpdate(table, req, coords, parse);
    if h.reply.Success? {
      var sets := CoordSets(ReadCoordRequest(req, coords, parse));
      var news := CoordRows(coords, parse).value;
      BulkUpdateRows(table, news, sets);
      BulkUpdateKeepsUnlisted(table, news, sets);
    }
  }

  /** TblEmplacement. */
  class LocationTable {
    var rows: seq<Row>

    constructor(initial: seq<Row>)
      ensures rows == initial
    {
      rows := initial;
    }

    /** The conditional MERGE of a staged batch whose columns are `columns`; a failed statement leaves the table as it was. */
    method Synchronise(source: seq<Row>, columns: seq<string>) returns (error: Option<MergeError>)
      modifies this
      ensures Merge(old(rows), source, columns).Ok? ==> error.None? && rows == Merge(old(rows), source, columns).value
      ensures Merge(old(rows), source, columns).Err? ==> error == Some(Merge(old(rows), source, columns).error) && rows == old(rows)
    {
      var merged := Merge(rows, source, columns);
      if merged.Err? {
        return Some(merged.error);
      }
      rows := merged.value;
      return None;
    }

    /** `api_update_detail_emplacement`. */
    method UpdateDetail(changes: seq<Object>, parse: FloatParser) returns (reply: Reply)
      modifies this
      ensures Handled(reply, rows) == DetailUpdate(old(rows), changes, parse)
    {
      if |changes| == 0 {
        return BadRequest(NoData);
      }
      var news := BuildDetailRows(changes, parse);
      assert news == DetailRows(changes, parse);
      var updated := BulkUpdate(rows, news, DetailSets);
      if updated.Err? {
        return ServerError(AmbiguousUpdate);
      }
      rows := updated.value;
      return Success(|changes|);
    }

    /** `api_update_coords`. */
    method UpdateCoords(req: Object, coords: seq<Object>, parse: FloatParser) returns (reply: Reply)
      modifies this
      ensures Handled(reply, rows) == CoordUpdate(old(rows), req, coords, parse)
    {
      var q := ReadCoords(req, coords, parse);
      if |coords| == 0 {
        return BadRequest(NoData);
      }
      var news := BuildCoordRows(coords, parse);
      var sets := BuildCoordSets(q);
      if sets == map[] {
        return BadRequest(NothingToUpdate);
      }
      if news.None? {
        return ServerError(UnparsableKey);
      }
      var updated := BulkUpdate(rows, news.value, sets);
      if updated.Err? {
        return ServerError(AmbiguousUpdate);
      }
      rows := updated.value;
      return Success(|coords|);
    }
  }
}
