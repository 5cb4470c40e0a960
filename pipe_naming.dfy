/** Names of the named pipes an import copies through: the stem shared by
    both ends, the patterns used to kill the processes at each end, and the
    files left in the data directory. */
module PipeNaming {
  import opened Decimal

  /** `"<created_at epoch seconds>_<import id>"`. */
  function PipeStem(createdAt: nat, importId: nat): (stem: string)
    ensures |stem| >= 3
  {
    Render(createdAt) + "_" + Render(importId)
  }

  /** Two imports share a stem only when they share both creation time and id. */
  lemma PipeStemInjective(c1: nat, i1: nat, c2: nat, i2: nat)
    requires PipeStem(c1, i1) == PipeStem(c2, i2)
    ensures c1 == c2 && i1 == i2
  {
    var r1, r2 := Render(c1), Render(c2);
    LastSegment(r1, Render(i1), r2, Render(i2));
    assert [] + "_" + r1 == "_" + r1;
    LastSegment([], r1, [], r2);
    RenderInjective(c1, c2);
    RenderInjective(i1, i2);
  }

  datatype PipeEnd = WriteEnd | ReadEnd

  /** The process-name pattern killed on the source connection (write end)
      or on the destination connection (read end). */
  function KillPattern(stem: string, end: PipeEnd): (pattern: string)
    ensures |pattern| == |stem| + 8
    ensures pattern[..6] == "pipe%_" && pattern[6..|pattern| - 2] == stem
    ensures pattern[|pattern| - 2..] == (if end == WriteEnd then "_w" else "_r")
  {
    "pipe%_" + stem + (if end == WriteEnd then "_w" else "_r")
  }

  /** A data-directory file belongs to the pipe with this stem when it starts
      with `pipe` and ends with `_<stem>` (the glob `pipe*_<stem>`). */
  predicate IsPipeFileOf(file: string, stem: string) {
    |file| >= 5 + |stem| && file[..4] == "pipe" && file[|file| - |stem| - 1..] == "_" + stem
  }

  /** The file name a copier may create: `pipe`, any decoration, `_`, the stem. */
  function PipeFileName(decoration: string, stem: string): (file: string)
    ensures IsPipeFileOf(file, stem)
  {
    "pipe" + decoration + "_" + stem
  }

  /** The pipe files of a stem are exactly the names `PipeFileName` can build. */
  lemma PipeFileShape(file: string, stem: string)
    ensures IsPipeFileOf(file, stem) <==> exists decoration :: file == PipeFileName(decoration, stem)
  {
    if IsPipeFileOf(file, stem) {
      var decoration := file[4..|file| - |stem| - 1];
      assert file == file[..4] + decoration + file[|file| - |stem| - 1..];
      assert file == PipeFileName(decoration, stem);
    }
  }

  predicate NoUnderscore(s: string) {
    forall i :: 0 <= i < |s| ==> s[i] != '_'
  }

  /** When two strings end in `_` followed by an underscore-free segment,
      equal strings have equal segments and equal remainders. */
  lemma LastSegment(a: string, d: string, b: string, e: string)
    requires NoUnderscore(d) && NoUnderscore(e)
    requires a + "_" + d == b + "_" + e
    ensures d == e && a == b
  {
    var s := a + "_" + d;
    var n := |s|;
    assert s[n - |d| - 1] == '_' && (b + "_" + e)[n - |e| - 1] == '_';
    assert d == s[n - |d|..] == e;
    assert a == s[..|a|] == b;
  }

  lemma DigitsHaveNoUnderscore(s: string)
    requires AllDigits(s)
    ensures NoUnderscore(s)
  {
  }

  /** Cancelling one import never removes the pipe files of another: a file
      named for one import's stem matches another import's stem only when
      both imports have the same creation time and id. */
  lemma {:induction false} PipeFileIsolation(decoration: string, c1: nat, i1: nat, c2: nat, i2: nat)
    ensures IsPipeFileOf(PipeFileName(decoration, PipeStem(c1, i1)), PipeStem(c2, i2))
            <==> c1 == c2 && i1 == i2
  {
    var file := PipeFileName(decoration, PipeStem(c1, i1));
    var stem2 := PipeStem(c2, i2);
    if IsPipeFileOf(file, stem2) {
      var x := file[..|file| - |stem2| - 1];
      assert file == x + ("_" + stem2);
      var r1, r2 := Render(c1), Render(c2);
      DigitsHaveNoUnderscore(Render(i1));
      DigitsHaveNoUnderscore(Render(i2));
      DigitsHaveNoUnderscore(r1);
      DigitsHaveNoUnderscore(r2);
      assert file == ("pipe" + decoration + "_" + r1) + "_" + Render(i1);
      assert file == (x + "_" + r2) + "_" + Render(i2);
      LastSegment("pipe" + decoration + "_" + r1, Render(i1), x + "_" + r2, Render(i2));
      LastSegment("pipe" + decoration, r1, x, r2);
      RenderInjective(c1, c2);
      RenderInjective(i1, i2);
    }
  }
}
