/**
 * Metadata stamping (`add_metadata`): every row of a batch gets the same load
 * timestamp and the configured source tag. The clock is read by the caller and
 * passed in as `loadedAt`.
 */
module Metadata {
  import opened Json

  const LoadedAt: string := "_loaded_at"
  const Source: string := "_source"
  const MetadataFields: set<string> := {LoadedAt, Source}

  /** One row after `r["_loaded_at"] = loaded_at; r["_source"] = SOURCE`. */
  function StampRow(row: Row, loadedAt: string, source: string): (r: Row)
    ensures r.Keys == row.Keys + MetadataFields
    ensures r[LoadedAt] == Str(loadedAt) && r[Source] == Str(source)
    ensures forall k :: k in row && k !in MetadataFields ==> r[k] == row[k]
  {
    row[LoadedAt := Str(loadedAt)][Source := Str(source)]
  }

  /** The batch after stamping: same length, one shared timestamp, other columns kept. */
  function Stamped(rows: seq<Row>, loadedAt: string, source: string): (out: seq<Row>)
    ensures |out| == |rows|
    ensures forall i :: 0 <= i < |out| ==> out[i].Keys == rows[i].Keys + MetadataFields
    ensures forall i :: 0 <= i < |out| ==> out[i][LoadedAt] == Str(loadedAt) && out[i][Source] == Str(source)
    ensures forall i, k :: 0 <= i < |out| && k in rows[i] && k !in MetadataFields ==> out[i][k] == rows[i][k]
  {
    seq(|rows|, i requires 0 <= i < |rows| => StampRow(rows[i], loadedAt, source))
  }

  /** `add_metadata(records)`: updates every row of the list in place and returns the list. */
  method AddMetadata(rows: array<Row>, loadedAt: string, source: string) returns (stamped: array<Row>)
    modifies rows
    ensures stamped == rows
    ensures rows[..] == Stamped(old(rows[..]), loadedAt, source)
  {
    for i := 0 to rows.Length
      invariant forall j :: 0 <= j < i ==> rows[j] == StampRow(old(rows[j]), loadedAt, source)
      invariant forall j :: i <= j < rows.Length ==> rows[j] == old(rows[j])
    {
      rows[i] := StampRow(rows[i], loadedAt, source);
    }
    stamped := rows;
  }

  /** Stamping an already stamped row again overwrites the two columns: the last stamp wins. */
  lemma StampRowOverwrites(row: Row, t1: string, s1: string, t2: string, s2: string)
    ensures StampRow(StampRow(row, t1, s1), t2, s2) == StampRow(row, t2, s2)
  {
    var lhs, rhs := StampRow(StampRow(row, t1, s1), t2, s2), StampRow(row, t2, s2);
    assert lhs.Keys == rhs.Keys;
    forall k | k in lhs ensures lhs[k] == rhs[k] {
      if k !in MetadataFields {
        assert lhs[k] == row[k];
      }
    }
  }

  /** Re-stamping a batch overwrites rather than adds columns; with the same values it is a no-op. */
  lemma StampedOverwrites(rows: seq<Row>, t1: string, s1: string, t2: string, s2: string)
    ensures Stamped(Stamped(rows, t1, s1), t2, s2) == Stamped(rows, t2, s2)
    ensures Stamped(Stamped(rows, t1, s1), t1, s1) == Stamped(rows, t1, s1)
    ensures forall i :: 0 <= i < |rows| ==>
      |Stamped(Stamped(rows, t1, s1), t2, s2)[i]| == |Stamped(rows, t1, s1)[i]|
    ensures forall i :: 0 <= i < |rows| ==> MetadataFields <= Stamped(rows, t1, s1)[i].Keys
  {
    forall i | 0 <= i < |rows|
      ensures StampRow(StampRow(rows[i], t1, s1), t2, s2) == StampRow(rows[i], t2, s2)
      ensures StampRow(StampRow(rows[i], t1, s1), t1, s1) == StampRow(rows[i], t1, s1)
    {
      StampRowOverwrites(rows[i], t1, s1, t2, s2);
      StampRowOverwrites(rows[i], t1, s1, t1, s1);
    }
    var once := Stamped(rows, t1, s1);
    forall i | 0 <= i < |rows| ensures |Stamped(once, t2, s2)[i]| == |once[i]| {
      assert Stamped(once, t2, s2)[i].Keys == once[i].Keys;
    }
  }
}
