/** Executor A9 (tasksA.py): find the two comments whose embeddings are
    closest and write them. The cosine distance between the embeddings of
    comments `i` and `j` is a parameter `distance(i, j)`, an integer here. */
module SimilarComments {
  import opened Wrappers
  import PyStr

  /** `(a, b)` is a pair the loops visit for `n` comments. */
  predicate IsPair(n: int, p: (int, int)) {
    0 <= p.0 < p.1 < n
  }

  /** `p` comes before `q` in the loops' row-major order. */
  predicate Before(p: (int, int), q: (int, int)) {
    p.0 < q.0 || (p.0 == q.0 && p.1 < q.1)
  }

  /** `p` has been visited once the loops reach row `i`, column `j`. */
  predicate Visited(p: (int, int), i: int, j: int) {
    p.0 < i || (p.0 == i && p.1 < j)
  }

  function Dist(distance: (int, int) -> int, p: (int, int)): int {
    distance(p.0, p.1)
  }

  /** `p` is a closest pair among the visited ones and strictly closer than
      every visited pair before it: the pair the strict `<` keeps. */
  ghost predicate FirstMinimalSoFar(n: int, distance: (int, int) -> int, p: (int, int), i: int, j: int) {
    && IsPair(n, p) && Visited(p, i, j)
    && (forall q | IsPair(n, q) && Visited(q, i, j) :: Dist(distance, p) <= Dist(distance, q))
    && (forall q | IsPair(n, q) && Visited(q, i, j) && Before(q, p) :: Dist(distance, p) < Dist(distance, q))
  }

  /** `p` is a closest pair and strictly closer than every pair before it
      in row-major order. */
  ghost predicate FirstMinimal(n: int, distance: (int, int) -> int, p: (int, int)) {
    && IsPair(n, p)
    && (forall q | IsPair(n, q) :: Dist(distance, p) <= Dist(distance, q))
    && (forall q | IsPair(n, q) && Before(q, p) :: Dist(distance, p) < Dist(distance, q))
  }

  /** Two loop positions that have visited the same pairs agree on the
      pair kept so far. */
  lemma SameVisited(n: int, distance: (int, int) -> int, p: (int, int), i1: int, j1: int, i2: int, j2: int)
    requires forall q | IsPair(n, q) :: Visited(q, i1, j1) <==> Visited(q, i2, j2)
    ensures FirstMinimalSoFar(n, distance, p, i1, j1) <==> FirstMinimalSoFar(n, distance, p, i2, j2)
  {
  }

  /** The nested `i`/`j` loops: the pair `most_similar` ends with, `None`
      for `(None, None)`. `min_distance` starts as `float("inf")`, here
      `None`. */
  method MostSimilar(n: nat, distance: (int, int) -> int) returns (best: Option<(int, int)>)
    ensures best.None? <==> n < 2
    ensures best.Some? ==> FirstMinimal(n, distance, best.value)
  {
    best := None;
    var minDistance: Option<int> := None;
    for i := 0 to n
      invariant best.None? <==> (i == 0 || n < 2)
      invariant best.Some? ==> FirstMinimalSoFar(n, distance, best.value, i, 0) && minDistance == Some(Dist(distance, best.value))
      invariant best.None? ==> minDistance.None?
    {
      if best.Some? {
        SameVisited(n, distance, best.value, i, 0, i, i + 1);
      }
      for j := i + 1 to n
        invariant best.None? <==> (i == 0 && j == i + 1)
        invariant best.Some? ==> FirstMinimalSoFar(n, distance, best.value, i, j) && minDistance == Some(Dist(distance, best.value))
        invariant best.None? ==> minDistance.None?
      {
        var d := distance(i, j);
        if minDistance.None? || d < minDistance.value {
          minDistance := Some(d);
          best := Some((i, j));
        }
      }
      if best.Some? {
        SameVisited(n, distance, best.value, i, n, i + 1, 0);
      }
    }
    if best.Some? {
      SameVisited(n, distance, best.value, n, 0, n + 1, 0);
    }
  }

  /** At most one pair is the first closest, so the result is determined by
      the distances. */
  lemma FirstMinimalIsUnique(n: int, distance: (int, int) -> int, p: (int, int), q: (int, int))
    requires FirstMinimal(n, distance, p) && FirstMinimal(n, distance, q)
    ensures p == q
  {
    assert Dist(distance, p) == Dist(distance, q);
    assert !Before(q, p) && !Before(p, q);
  }

  /** `[line.strip() for line in f.readlines()]` */
  function Comments(content: string): (r: seq<string>)
    ensures |r| == |PyStr.ReadLines(content)|
    ensures forall k | 0 <= k < |r| :: r[k] == PyStr.Strip(PyStr.ReadLines(content)[k])
  {
    var lines := PyStr.ReadLines(content);
    seq(|lines|, k requires 0 <= k < |lines| => PyStr.Strip(lines[k]))
  }

  /** `str(e)` of the `TypeError` from `None + "\n"`. */
  const NoPairError: string := "unsupported operand type(s) for +: 'NoneType' and 'str'"

  /** A9 as a whole: what the output file holds afterwards, and the error
      raised, if any. The file is opened for writing, and so emptied,
      before the text to write is built, so with fewer than two comments it
      is left empty when `None + "\n"` raises. */
  method A9(content: string, distance: (int, int) -> int) returns (file: string, raised: Option<string>)
    ensures raised.Some? <==> |Comments(content)| < 2
    ensures raised.Some? ==> raised.value == NoPairError && file == ""
    ensures raised.None? ==> exists p | FirstMinimal(|Comments(content)|, distance, p) ::
      file == Comments(content)[p.0] + "\n" + Comments(content)[p.1] + "\n"
  {
    var comments := Comments(content);
    var best := MostSimilar(|comments|, distance);
    file := "";
    match best
    case None =>
      raised := Some(NoPairError);
    case Some(p) =>
      file := comments[p.0] + "\n" + comments[p.1] + "\n";
      raised := None;
  }

  /** A comment never holds a newline. */
  lemma CommentHasNoNewline(content: string, k: int)
    requires 0 <= k < |Comments(content)|
    ensures '\n' !in Comments(content)[k]
  {
    PyStr.ReadLinesAreLines(content, k);
    PyStr.StrippedLineHasNoNewline(PyStr.ReadLines(content)[k]);
  }

  /** Read back with `split("\n")`, the text written for a pair holds the
      two comments, then the empty text after the final newline. */
  lemma WrittenPairReadsBack(content: string, p: (int, int))
    requires IsPair(|Comments(content)|, p)
    ensures var c := Comments(content);
      PyStr.Split(c[p.0] + "\n" + c[p.1] + "\n", '\n') == [c[p.0], c[p.1], ""]
  {
    CommentHasNoNewline(content, p.0);
    CommentHasNoNewline(content, p.1);
    TwoLinesReadBack(Comments(content)[p.0], Comments(content)[p.1]);
  }

  lemma TwoLinesReadBack(a: string, b: string)
    requires '\n' !in a && '\n' !in b
    ensures PyStr.Split(a + "\n" + b + "\n", '\n') == [a, b, ""]
  {
    var pieces := [a, b, ""];
    assert PyStr.Join(pieces, '\n') == a + "\n" + b + "\n" by {
      assert PyStr.Join(pieces[2..], '\n') == "";
      assert PyStr.Join(pieces[1..], '\n') == b + "\n";
    }
    PyStr.SplitJoin(pieces, '\n');
  }
}
