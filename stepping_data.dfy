/** The `SteppingData` progress log of methods.py: an append-only .mdat log
    with one header line per session and one line per optimiser step, whose
    best-offset column is written only when the offset changed. */
module SteppingLog {
  import opened Results

  /** One line of the log. Numbers are kept as values; their text rendering
      (`%d`, `%+10.9e`) is not modelled. */
  datatype Line =
    | Header
      /** evaluation count, portfolio iteration, instance index, method name,
          method iterations, fitness, and the best offset when it changed */
    | Step(evals: int, totalIters: nat, index: int, name: string, iters: int,
           fitness: real, best: Option<real>)

  /** The best-offset field of one step: present unless the previous offset
      is known and equal. */
  function BestField(lastBest: Option<real>, best: real): (field: Option<real>)
    ensures field.Some? <==> lastBest != Some(best)
    ensures field.Some? ==> field.value == best
  {
    if lastBest == None || best != lastBest.value then Some(best) else None
  }

  /** The remembered offset after `bests` have been recorded, starting from
      `prev`. */
  function Latest(prev: Option<real>, bests: seq<real>): Option<real>
  {
    if bests == [] then prev else Some(bests[|bests| - 1])
  }

  /** The best-offset fields a run of steps with offsets `bests` writes,
      starting from the remembered offset `prev`, one step at a time. */
  function Encoded(prev: Option<real>, bests: seq<real>): (fields: seq<Option<real>>)
    ensures |fields| == |bests|
    decreases |bests|
  {
    if bests == [] then []
    else
      var before := bests[..|bests| - 1];
      Encoded(prev, before) + [BestField(Latest(prev, before), bests[|bests| - 1])]
  }

  /** The reader's side: every step's best offset, carrying the last written
      one forward over steps that omit it. */
  function Decoded(prev: Option<real>, fields: seq<Option<real>>): (offsets: seq<Option<real>>)
    ensures |offsets| == |fields|
    decreases |fields|
  {
    if fields == [] then []
    else
      var before := Decoded(prev, fields[..|fields| - 1]);
      var carried := if before == [] then prev else before[|before| - 1];
      var last := fields[|fields| - 1];
      before + [if last.Some? then last else carried]
  }

  /** Every offset of `bests`, each as a present value. */
  function Present(bests: seq<real>): (r: seq<Option<real>>)
    ensures |r| == |bests|
    ensures forall i :: 0 <= i < |bests| ==> r[i] == Some(bests[i])
  {
    seq(|bests|, i requires 0 <= i < |bests| => Some(bests[i]))
  }

  /** Reading one more field appends one offset: the field itself, or the
      last offset read when it is omitted. */
  lemma DecodedAppend(prev: Option<real>, fields: seq<Option<real>>, field: Option<real>)
    ensures var d := Decoded(prev, fields);
            Decoded(prev, fields + [field])
              == d + [if field.Some? then field else if d == [] then prev else d[|d| - 1]]
  {
    assert (fields + [field])[..|fields|] == fields;
  }

  /** The differential encoding loses nothing: reading the fields back
      recovers the offset of every step. */
  lemma {:induction false} DecodeEncoded(prev: Option<real>, bests: seq<real>)
    ensures Decoded(prev, Encoded(prev, bests)) == Present(bests)
    decreases |bests|
  {
    if bests != [] {
      var n := |bests|;
      var before, b := bests[..n - 1], bests[n - 1];
      assert bests == before + [b];
      var fields := Encoded(prev, before);
      var field := BestField(Latest(prev, before), b);
      DecodeEncoded(prev, before);
      assert Decoded(prev, fields) == Present(before);
      EncodedAppend(prev, before, b);
      assert Encoded(prev, bests) == fields + [field];
      DecodedAppend(prev, fields, field);
      assert Decoded(prev, fields + [field]) == Present(before) + [Some(b)];
      assert Present(before) + [Some(b)] == Present(bests);
    }
  }

  /** Field by field: step `i` carries its offset exactly when it differs
      from the one before it (from `prev` for the first step). */
  lemma {:induction false} EncodedAt(prev: Option<real>, bests: seq<real>, i: nat)
    requires i < |bests|
    ensures Encoded(prev, bests)[i] == BestField(if i == 0 then prev else Some(bests[i - 1]), bests[i])
    decreases |bests|
  {
    var n := |bests|;
    var before := bests[..n - 1];
    if i < n - 1 {
      EncodedAt(prev, before, i);
    }
  }

  /** Of two consecutive steps with the same offset, only the first can carry
      it; a step whose offset changed always carries it. */
  lemma RepeatOmitted(bests: seq<real>, i: nat)
    requires 0 < i < |bests|
    ensures Encoded(None, bests)[i] == None <==> bests[i] == bests[i - 1]
    ensures Encoded(None, bests)[0] == Some(bests[0])
  {
    EncodedAt(None, bests, i);
    EncodedAt(None, bests, 0);
  }

  /** The best-offset column of a run of lines (none for a header). */
  function Fields(lines: seq<Line>): (fields: seq<Option<real>>)
    ensures |fields| == |lines|
  {
    seq(|lines|, i requires 0 <= i < |lines| => if lines[i].Step? then lines[i].best else None)
  }

  /** Appending a line appends its field. */
  lemma FieldsAppend(lines: seq<Line>, line: Line)
    requires line.Step?
    ensures Fields(lines + [line]) == Fields(lines) + [line.best]
  {
  }

  /** Recording one more offset appends one field. */
  lemma EncodedAppend(prev: Option<real>, bests: seq<real>, best: real)
    ensures Encoded(prev, bests + [best]) == Encoded(prev, bests) + [BestField(Latest(prev, bests), best)]
  {
    assert (bests + [best])[..|bests|] == bests;
  }

  /** The portfolio-iteration column of step lines never goes down. */
  ghost predicate IterationsSorted(steps: seq<Line>)
    requires forall j :: 0 <= j < |steps| ==> steps[j].Step?
  {
    forall j, k :: 0 <= j <= k < |steps| ==> steps[j].totalIters <= steps[k].totalIters
  }

  /** A step no earlier than every logged step keeps the column sorted. */
  lemma SortedAppend(steps: seq<Line>, line: Line, iters: nat)
    requires forall j :: 0 <= j < |steps| ==> steps[j].Step? && steps[j].totalIters <= iters
    requires IterationsSorted(steps)
    requires line.Step? && line.totalIters == iters
    ensures IterationsSorted(steps + [line])
  {
  }

  /** The state of one logging session over an .mdat file opened for
      appending. */
  class SteppingData {
    /** Portfolio iterations ended so far (`total_iters`). */
    var totalIters: nat
    /** The best offset last written (`last_best`), unset before the first
        step. */
    var lastBest: Option<real>
    /** The whole file: earlier sessions' lines, then this session's. */
    var file: seq<Line>
    /** The lines the file held when this session opened it. */
    ghost const prior: seq<Line>
    /** This session's step lines, in order. */
    ghost var steps: seq<Line>
    /** The best offsets of this session's steps, in order. */
    ghost var bests: seq<real>

    /** The file is the earlier lines, one header, then only step lines,
        whose iteration column is sorted and never ahead of the counter, and
        whose best-offset column is the differential encoding of `bests`. */
    ghost predicate Valid()
      reads this
    {
      file == prior + [Header] + steps &&
      (forall j :: 0 <= j < |steps| ==> steps[j].Step? && steps[j].totalIters <= totalIters) &&
      IterationsSorted(steps) &&
      Fields(steps) == Encoded(None, bests) &&
      lastBest == Latest(None, bests)
    }

    /** Open the log on a file holding `existing` and write the header. */
    constructor (existing: seq<Line>)
      ensures Valid()
      ensures totalIters == 0 && lastBest == None
      ensures file == existing + [Header] && steps == [] && bests == []
    {
      totalIters := 0;
      lastBest := None;
      file := existing + [Header];
      prior := existing;
      steps := [];
      bests := [];
    }

    /** `end_iter`: one more portfolio iteration; nothing else changes. */
    method EndIter()
      requires Valid()
      modifies this
      ensures Valid()
      ensures totalIters == old(totalIters) + 1
      ensures lastBest == old(lastBest) && file == old(file)
      ensures steps == old(steps) && bests == old(bests)
    {
      totalIters := totalIters + 1;
    }

    /** `record(i, name, iters, fitness, point)` when the benchmark function's
        last evaluation has count `evals` and best fitness `bestf`, and its
        optimum is `fopt`: append one step line, writing the offset
        `bestf - fopt` only if it differs from the one last written. The
        point is not written. */
    method Record(evals: int, bestf: real, fopt: real, i: int, name: string, iters: int,
                  fitness: real, point: seq<real>)
      requires Valid()
      modifies this
      ensures Valid()
      ensures totalIters == old(totalIters)
      ensures lastBest == Some(bestf - fopt)
      ensures bests == old(bests) + [bestf - fopt]
      ensures file == old(file) + [Step(evals, totalIters, i, name, iters, fitness,
                                        if old(lastBest) == Some(bestf - fopt) then None
                                        else Some(bestf - fopt))]
      ensures steps == old(steps) + [file[|file| - 1]]
    {
      var best := bestf - fopt;
      var line := Step(evals, totalIters, i, name, iters, fitness, None);
      if lastBest == None || best != lastBest.value {
        line := line.(best := Some(best));
        lastBest := Some(best);
      }
      SortedAppend(steps, line, totalIters);
      FieldsAppend(steps, line);
      EncodedAppend(None, bests, best);
      file := file + [line];
      steps := steps + [line];
      bests := bests + [best];
    }
  }

  /** In any session the log determines the best offset of every step. */
  lemma LogRecoversOffsets(d: SteppingData)
    requires d.Valid()
    ensures Decoded(None, Fields(d.steps)) == Present(d.bests)
  {
    DecodeEncoded(None, d.bests);
  }

  /** Usage: two steps with the same offset, then a changed one. */
  method StepExamples()
  {
    var d := new SteppingData([]);
    d.Record(10, 0.001, 0.0, 0, "BFGS", 1, 2.5, []);
    assert d.file[1].best == Some(0.001);
    d.Record(20, 0.001, 0.0, 0, "BFGS", 2, 2.4, []);
    assert d.file[2].best == None;
    d.EndIter();
    d.Record(30, 0.0005, 0.0, 0, "BFGS", 3, 2.3, []);
    assert d.file[3].best == Some(0.0005) && d.file[3].totalIters == 1;
    assert d.file[0] == Header;
  }
}
