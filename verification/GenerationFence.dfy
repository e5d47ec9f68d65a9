/**
 Generation fencing: a row takes a write only when the write's generation is not
 behind its own. Late reports lose, whatever order they arrive in.
 */
module GenerationFence {
  import opened Options

  /** A fenced row: its generation and what was last written under it. */
  datatype Row<P> = Row(generation: int, payload: P)

  /** `UPDATE … WHERE generation <= ?`. */
  function Write<P>(row: Row<P>, w: Row<P>): Row<P> {
    if row.generation <= w.generation then w else row
  }

  function WriteAll<P>(row: Row<P>, ws: seq<Row<P>>): Row<P> {
    if ws == [] then row else Write(WriteAll(row, ws[..|ws| - 1]), ws[|ws| - 1])
  }

  /** The highest generation among a start and some writes. */
  function Top<P>(start: int, ws: seq<Row<P>>): int {
    if ws == [] then start
    else
      var t := Top(start, ws[..|ws| - 1]);
      if t <= ws[|ws| - 1].generation then ws[|ws| - 1].generation else t
  }

  /** The last write at a generation. */
  function LastAt<P>(generation: int, ws: seq<Row<P>>): Option<Row<P>> {
    if ws == [] then None
    else if ws[|ws| - 1].generation == generation then Some(ws[|ws| - 1])
    else LastAt(generation, ws[..|ws| - 1])
  }

  lemma {:induction false} TopIsMax<P>(start: int, ws: seq<Row<P>>)
    ensures start <= Top(start, ws)
    ensures forall w :: w in ws ==> w.generation <= Top(start, ws)
    ensures Top(start, ws) == start || exists w :: w in ws && w.generation == Top(start, ws)
  {
    if ws != [] {
      var n := |ws| - 1;
      TopIsMax(start, ws[..n]);
      assert ws == ws[..n] + [ws[n]];
      assert ws[n] in ws;
    }
  }

  lemma {:induction false} LastAtIn<P>(generation: int, ws: seq<Row<P>>)
    ensures LastAt(generation, ws).Some? ==>
      LastAt(generation, ws).value in ws && LastAt(generation, ws).value.generation == generation
    ensures LastAt(generation, ws).None? ==> forall w :: w in ws ==> w.generation != generation
  {
    if ws != [] {
      var n := |ws| - 1;
      LastAtIn(generation, ws[..n]);
      assert ws == ws[..n] + [ws[n]];
    }
  }

  /** A row ends at the highest generation, as the last write at that generation left it. */
  lemma {:induction false} LastWriteAtTopWins<P>(row: Row<P>, ws: seq<Row<P>>)
    ensures WriteAll(row, ws).generation == Top(row.generation, ws)
    ensures WriteAll(row, ws) ==
      match LastAt(Top(row.generation, ws), ws) case Some(w) => w case None => row
  {
    if ws != [] {
      var n := |ws| - 1;
      LastWriteAtTopWins(row, ws[..n]);
      TopIsMax(row.generation, ws[..n]);
      if Top(row.generation, ws) != Top(row.generation, ws[..n]) {
        LastAtIn(Top(row.generation, ws), ws[..n]);
      }
    }
  }

  /** A write is refused exactly when its generation is behind everything before it, and changes nothing then. */
  lemma RefusedWrites<P>(row: Row<P>, ws: seq<Row<P>>, w: Row<P>)
    ensures w.generation < Top(row.generation, ws) <==> Write(WriteAll(row, ws), w).generation > w.generation
    ensures w.generation < Top(row.generation, ws) ==> Write(WriteAll(row, ws), w) == WriteAll(row, ws)
  {
    LastWriteAtTopWins(row, ws);
  }

  // Reordering

  /** Any order of the same writes ends in the same row. */
  ghost predicate OrderIrrelevant<P(!new)>(row: Row<P>, ws: seq<Row<P>>) {
    forall vs: seq<Row<P>> :: multiset(vs) == multiset(ws) ==> WriteAll(row, vs) == WriteAll(row, ws)
  }

  /** The writes at the highest generation all say the same. */
  ghost predicate AgreeAtTop<P>(row: Row<P>, ws: seq<Row<P>>) {
    var top := Top(row.generation, ws);
    forall v, w :: (v in ws && w in ws && v.generation == top && w.generation == top) ==> v == w
  }

  lemma SameElements<P>(vs: seq<Row<P>>, ws: seq<Row<P>>)
    requires multiset(vs) == multiset(ws)
    ensures forall w :: w in vs <==> w in ws
  {
    forall w ensures w in vs <==> w in ws {
      assert w in vs <==> w in multiset(vs);
      assert w in ws <==> w in multiset(ws);
    }
  }

  lemma TopReordered<P>(start: int, vs: seq<Row<P>>, ws: seq<Row<P>>)
    requires multiset(vs) == multiset(ws)
    ensures Top(start, vs) == Top(start, ws)
  {
    SameElements(vs, ws);
    TopIsMax(start, vs);
    TopIsMax(start, ws);
  }

  lemma AgreeingWritesReorder<P>(row: Row<P>, vs: seq<Row<P>>, ws: seq<Row<P>>)
    requires AgreeAtTop(row, ws) && multiset(vs) == multiset(ws)
    ensures WriteAll(row, vs) == WriteAll(row, ws)
  {
    var top := Top(row.generation, ws);
    SameElements(vs, ws);
    TopReordered(row.generation, vs, ws);
    LastWriteAtTopWins(row, vs);
    LastWriteAtTopWins(row, ws);
    LastAtIn(top, vs);
    LastAtIn(top, ws);
  }

  /** Some order of the writes lets a chosen top write have the last word. */
  lemma LastWord<P>(row: Row<P>, ws: seq<Row<P>>, w: Row<P>) returns (vs: seq<Row<P>>)
    requires w in ws && w.generation == Top(row.generation, ws)
    ensures multiset(vs) == multiset(ws) && WriteAll(row, vs) == w
  {
    var k :| 0 <= k < |ws| && ws[k] == w;
    vs := ws[..k] + ws[k + 1..] + [w];
    assert ws == ws[..k] + [w] + ws[k + 1..];
    TopReordered(row.generation, vs, ws);
    LastWriteAtTopWins(row, vs);
  }

  /**
   Writes converge whatever their order exactly when those at the highest generation agree;
   writes with distinct generations always do.
   */
  lemma ConvergesIffAgree<P(!new)>(row: Row<P>, ws: seq<Row<P>>)
    ensures OrderIrrelevant(row, ws) <==> AgreeAtTop(row, ws)
  {
    if AgreeAtTop(row, ws) {
      forall vs: seq<Row<P>> | multiset(vs) == multiset(ws) ensures WriteAll(row, vs) == WriteAll(row, ws) {
        AgreeingWritesReorder(row, vs, ws);
      }
    }
    if OrderIrrelevant(row, ws) {
      var top := Top(row.generation, ws);
      forall v, w | v in ws && w in ws && v.generation == top && w.generation == top ensures v == w {
        var vs := LastWord(row, ws, v);
        var us := LastWord(row, ws, w);
      }
    }
  }

  lemma DistinctGenerationsAgree<P>(row: Row<P>, ws: seq<Row<P>>)
    requires forall i, j :: 0 <= i < j < |ws| ==> ws[i].generation != ws[j].generation
    ensures AgreeAtTop(row, ws)
  {
  }
}
