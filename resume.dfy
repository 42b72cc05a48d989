/**
 * How main.py wires a resumed run: it loads the checkpoint, fetches the list
 * with the processed names already filtered out, and hands run_invitation
 * that filtered list together with the saved batch number. run_invitation
 * then starts at `last_chunk * chunk_size` of the list it was given, so the
 * offset is applied a second time to a list that no longer holds the names
 * it was meant to skip.
 */
module Resume {
  import opened Seqs
  import opened ProgressStore
  import opened UsernameList
  import InviterCore

  /** The list main.py passes to run_invitation: the CSV names the checkpoint has not processed. */
  function Pending(rows: seq<seq<string>>, p: Progress): (names: seq<string>)
    ensures forall x :: x in names <==> x in KeptNames(rows) && x !in ToSet(p.processed)
  {
    var names := FilterUnprocessed(KeptNames(rows), ToSet(p.processed));
    assert forall x :: x in names <==> multiset(names)[x] > 0;
    names
  }

  /**
   * The names a resumed run attempts, as the code is written: the batches of
   * run_invitation start at offset `last_chunk * chunk_size` of the filtered
   * list, and together they are exactly the list from that offset on. Once
   * that offset reaches the end of the filtered list, nothing is attempted,
   * however many names are pending.
   */
  function AttemptedAsWritten(rows: seq<seq<string>>, p: Progress, c: nat): (names: seq<string>)
    requires c > 0 && p.lastChunk >= 0
    ensures names == Concat(InviterCore.Chunks(Drop(Pending(rows, p), p.lastChunk * c), c))
    ensures forall x :: x in names ==> x in Pending(rows, p)
    ensures |Pending(rows, p)| <= p.lastChunk * c ==> names == []
    ensures p.lastChunk * c <= |Pending(rows, p)| ==> |names| == |Pending(rows, p)| - p.lastChunk * c
  {
    var pending := Pending(rows, p);
    var names := Drop(pending, p.lastChunk * c);
    InviterCore.ChunksTile(names, c);
    assert forall x :: x in names ==> x in pending by {
      if p.lastChunk * c <= |pending| {
        assert pending == pending[..p.lastChunk * c] + names;
      }
    }
    names
  }

  /**
   * The names a resumed run should attempt: the list is already filtered,
   * so its batches have to start at its beginning (offset 0). Then every CSV
   * name the checkpoint has not processed is attempted, and no other.
   */
  function AttemptedFixed(rows: seq<seq<string>>, p: Progress, c: nat): (names: seq<string>)
    requires c > 0
    ensures names == Concat(InviterCore.Chunks(Drop(Pending(rows, p), 0), c))
    ensures forall x :: x in names <==> x in KeptNames(rows) && x !in ToSet(p.processed)
  {
    var pending := Pending(rows, p);
    InviterCore.ChunksTile(pending, c);
    pending
  }

  /** A name a CSV row may hold that normalisation leaves as it is and the loop keeps. */
  predicate Plain(name: string)
  {
    Normalize(name) == name && Kept(name)
  }

  /**
   * A run over the rows a, b, c, d with batches of 2 stopped after batch 1:
   * the checkpoint holds a and b with last_chunk 1. On resume the filtered
   * list is c, d; the offset 1 * 2 skips both, so c is pending but never
   * attempted. With the fix it is attempted. (alice, bob, carol, dave are
   * such names.)
   */
  lemma ResumeSkipsUnattempted(a: string, b: string, c: string, d: string)
    requires Plain(a) && Plain(b) && Plain(c) && Plain(d)
    requires c != a && c != b && d != a && d != b
    ensures var rows := [[a], [b], [c], [d]];
      var p := Progress([a, b], [], 15, 1, Some(0));
      c in KeptNames(rows) && c !in ToSet(p.processed) &&
      c !in AttemptedAsWritten(rows, p, 2) &&
      c in AttemptedFixed(rows, p, 2)
  {
    var rows := [[a], [b], [c], [d]];
    var p := Progress([a, b], [], 15, 1, Some(0));
    ExampleNames(rows, a, b, c, d);
    var done := ToSet(p.processed);
    assert a in done && b in done && c !in done && d !in done;
    ExamplePending([a, b, c, d], done, a, b, c, d);
  }

  /** The example's rows yield their four names, in order. */
  lemma ExampleNames(rows: seq<seq<string>>, a: string, b: string, c: string, d: string)
    requires Plain(a) && Plain(b) && Plain(c) && Plain(d)
    requires rows == [[a], [b], [c], [d]]
    ensures KeptNames(rows) == [a, b, c, d]
  {
    var r0: seq<seq<string>> := [];
    KeptNamesSnocPlain(r0, a);
    KeptNamesSnocPlain(r0 + [[a]], b);
    KeptNamesSnocPlain(r0 + [[a]] + [[b]], c);
    KeptNamesSnocPlain(r0 + [[a]] + [[b]] + [[c]], d);
    assert r0 + [[a]] + [[b]] + [[c]] + [[d]] == rows;
  }

  /** The example's checkpoint filters a and b out and keeps c and d. */
  lemma ExamplePending(names: seq<string>, done: set<string>, a: string, b: string, c: string, d: string)
    requires names == [a, b, c, d]
    requires a in done && b in done && c !in done && d !in done
    ensures FilterUnprocessed(names, done) == [c, d]
  {
    var front, back := [a, b], [c, d];
    assert names == front + back;
    FilterNoneKept(front, done);
    FilterAllKept(back, done);
    FilterUnprocessedAppend(front, back, done);
  }

  /** A list made of processed names filters down to nothing. */
  lemma {:induction false} FilterNoneKept(names: seq<string>, processed: set<string>)
    requires forall x :: x in names ==> x in processed
    ensures FilterUnprocessed(names, processed) == []
  {
    if names != [] {
      FilterNoneKept(names[..|names| - 1], processed);
    }
  }

  /** A list with no processed name passes the filter unchanged. */
  lemma {:induction false} FilterAllKept(names: seq<string>, processed: set<string>)
    requires forall x :: x in names ==> x !in processed
    ensures FilterUnprocessed(names, processed) == names
  {
    if names != [] {
      var n := |names| - 1;
      FilterAllKept(names[..n], processed);
      assert names[..n] + [names[n]] == names;
    }
  }

  /** Appending a row whose cell is a plain name appends that name. */
  lemma KeptNamesSnocPlain(rows: seq<seq<string>>, name: string)
    requires Plain(name)
    ensures KeptNames(rows + [[name]]) == KeptNames(rows) + [name]
  {
    assert (rows + [[name]])[..|rows|] == rows;
  }
}
