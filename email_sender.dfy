/** Executor A7 (tasksA.py): take the sender's address from the first line
    of an e-mail that starts with "From". */
module EmailSender {
  import PyStr

  /** What is written when no line starts with "From". */
  const Unknown: string := "unknown@example.com"

  /** `line.startswith("From")` */
  predicate IsFromLine(line: string) {
    PyStr.StartsWith(line, "From")
  }

  /** `line.strip().split(" ")[-1].replace("<", "").replace(">", "")` */
  function SenderOf(line: string): string {
    PyStr.RemoveChar(PyStr.RemoveChar(PyStr.LastPiece(PyStr.Strip(line), ' '), '<'), '>')
  }

  /** `t` without its angle brackets, every other character kept in
      order. */
  function Unbracket(t: string): string {
    if t == [] then []
    else (if t[0] == '<' || t[0] == '>' then [] else [t[0]]) + Unbracket(t[1..])
  }

  /** The two `replace` calls remove the angle brackets in one pass. */
  lemma {:induction false} RemovingBothIsUnbracket(t: string)
    ensures PyStr.RemoveChar(PyStr.RemoveChar(t, '<'), '>') == Unbracket(t)
  {
    if t != [] {
      RemovingBothIsUnbracket(t[1..]);
      assert t == [t[0]] + t[1..];
      PyStr.RemoveCharAppend([t[0]], t[1..], '<');
      PyStr.RemoveCharAppend(PyStr.RemoveChar([t[0]], '<'), PyStr.RemoveChar(t[1..], '<'), '>');
      PyStr.RemoveCharOne(t[0], '<');
      PyStr.RemoveCharOne(t[0], '>');
    }
  }

  /** The sender of the first "From" line, or `Unknown`. */
  function FirstSender(lines: seq<string>): string {
    if lines == [] then Unknown
    else if IsFromLine(lines[0]) then SenderOf(lines[0])
    else FirstSender(lines[1..])
  }

  /** The first "From" line decides: later ones are ignored. */
  lemma {:induction false} FirstFromLineWins(lines: seq<string>, k: int)
    requires 0 <= k < |lines| && IsFromLine(lines[k])
    requires forall m | 0 <= m < k :: !IsFromLine(lines[m])
    ensures FirstSender(lines) == SenderOf(lines[k])
  {
    if k > 0 {
      FirstFromLineWins(lines[1..], k - 1);
    }
  }

  /** Without a "From" line the sender is `Unknown`. */
  lemma {:induction false} NoFromLineGivesUnknown(lines: seq<string>)
    requires forall m | 0 <= m < |lines| :: !IsFromLine(lines[m])
    ensures FirstSender(lines) == Unknown
  {
    if lines != [] {
      NoFromLineGivesUnknown(lines[1..]);
    }
  }

  /** The extracted sender is the last space-separated token of the
      stripped line, with every `<` and `>` removed and every other
      character kept in order: it holds no space and no angle bracket. */
  lemma SenderIsCleanLastToken(line: string)
    ensures var token := PyStr.LastPiece(PyStr.Strip(line), ' ');
      && PyStr.EndsWith(PyStr.Strip(line), token)
      && ' ' !in token
      && SenderOf(line) == Unbracket(token)
      && multiset(SenderOf(line)) == multiset(token)['<' := 0]['>' := 0]
      && ' ' !in SenderOf(line) && '<' !in SenderOf(line) && '>' !in SenderOf(line)
  {
    var token := PyStr.LastPiece(PyStr.Strip(line), ' ');
    PyStr.LastPieceIsTail(PyStr.Strip(line), ' ');
    BracketsRemoved(token);
    RemovingBothIsUnbracket(token);
  }

  /** Removing both brackets from a token without spaces keeps every other
      character as often as it occurs and leaves no space or bracket. */
  lemma BracketsRemoved(t: string)
    requires ' ' !in t
    ensures var r := PyStr.RemoveChar(PyStr.RemoveChar(t, '<'), '>');
      && multiset(r) == multiset(t)['<' := 0]['>' := 0]
      && ' ' !in r && '<' !in r && '>' !in r
  {
    var noOpen := PyStr.RemoveChar(t, '<');
    PyStr.RemoveCharCounts(t, '<');
    PyStr.RemoveCharCounts(noOpen, '>');
    var r := PyStr.RemoveChar(noOpen, '>');
    assert ' ' !in multiset(t);
    assert ' ' !in multiset(r) && '<' !in multiset(r) && '>' !in multiset(r);
  }

  /** A7 as a whole: the text written to the output file, given the input
      file's content. */
  method A7(content: string) returns (sender: string)
    ensures sender == FirstSender(PyStr.ReadLines(content))
  {
    var lines := PyStr.ReadLines(content);
    sender := Unknown;
    ghost var found := false;
    for k := 0 to |lines|
      invariant !found && sender == Unknown
      invariant forall m | 0 <= m < k :: !IsFromLine(lines[m])
    {
      if PyStr.StartsWith(lines[k], "From") {
        sender := SenderOf(lines[k]);
        FirstFromLineWins(lines, k);
        found := true;
        break;
      }
    }
    if !found {
      NoFromLineGivesUnknown(lines);
    }
  }
}
