/** The path patterns of A5 to A10 (app.py) and the defaults declared
    beside them. `./(.\.ext)` asks for one character, a slash, one
    character, a dot and the extension, so it finds a path only where a
    segment is a single character before `.ext`; none of the default file
    paths has such a segment. */
module PathPatterns {
  import opened Pattern

  /** The atoms `./(.\.ext)` compiles to. */
  function FileAtoms(ext: string): seq<Atom> {
    [AnyChar, Lit('/'), AnyChar, Lit('.')] + Literal(ext)
  }

  /** A slash at `j` with a dot two places after it. */
  predicate SlashDotAt(s: string, j: int) {
    0 <= j && j + 2 < |s| && s[j] == '/' && s[j + 2] == '.'
  }

  /** A match of `./(.\.ext)` starting at `j` puts a slash at `j + 1` and a
      dot at `j + 3`. */
  lemma FileMatchNeedsSlashDot(ext: string, s: string, j: nat)
    requires j <= |s| && MatchesAt(FileAtoms(ext), 0, s, j)
    ensures SlashDotAt(s, j + 1)
  {
    var atoms := FileAtoms(ext);
    assert atoms[0] == AnyChar && atoms[1] == Lit('/') && atoms[2] == AnyChar && atoms[3] == Lit('.');
    assert MatchesAt(atoms, 1, s, j + 1);
    assert MatchesAt(atoms, 2, s, j + 2);
    assert MatchesAt(atoms, 3, s, j + 3);
  }

  /** A text with no slash followed two places later by a dot is never
      found by `./(.\.ext)`. */
  lemma FileSearchMisses(ext: string, s: string)
    requires forall j :: !SlashDotAt(s, j)
    ensures !Search(FileAtoms(ext), s)
  {
    SearchFromFindsStart(FileAtoms(ext), s, 0);
    if Search(FileAtoms(ext), s) {
      var j: nat :| j <= |s| && MatchesAt(FileAtoms(ext), 0, s, j);
      FileMatchNeedsSlashDot(ext, s, j);
    }
  }

  /** `/seg0/seg1/...`: the path made of the given segments. */
  function Path(segments: seq<string>): (s: string)
    ensures s == [] || s[0] == '/'
  {
    if segments == [] then [] else "/" + segments[0] + Path(segments[1..])
  }

  /** A segment of at least two characters, without a slash, whose second
      character is not a dot. */
  predicate LongSegment(seg: string) {
    |seg| >= 2 && '/' !in seg && seg[1] != '.'
  }

  /** A path of long segments has no slash with a dot two places after
      it. */
  lemma {:induction false} LongSegmentsHaveNoSlashDot(segments: seq<string>)
    requires forall k | 0 <= k < |segments| :: LongSegment(segments[k])
    ensures forall j :: !SlashDotAt(Path(segments), j)
  {
    if segments != [] {
      var seg := segments[0];
      var rest := Path(segments[1..]);
      LongSegmentsHaveNoSlashDot(segments[1..]);
      var s := Path(segments);
      assert s == "/" + seg + rest;
      forall j
        ensures !SlashDotAt(s, j)
      {
        if 1 <= j <= |seg| {
          assert s[j] == seg[j - 1];
        } else if |seg| < j && j + 2 < |s| {
          assert s[j] == rest[j - 1 - |seg|] && s[j + 2] == rest[j + 1 - |seg|];
          assert !SlashDotAt(rest, j - 1 - |seg|);
        }
      }
    }
  }

  /** A path of long segments is never found by `./(.\.ext)`. */
  lemma LongSegmentPathMisses(ext: string, segments: seq<string>)
    requires forall k | 0 <= k < |segments| :: LongSegment(segments[k])
    ensures !Search(FileAtoms(ext), Path(segments))
  {
    LongSegmentsHaveNoSlashDot(segments);
    FileSearchMisses(ext, Path(segments));
  }

  /** `.*` followed by `/logs` */
  const LogsDir: seq<Atom> := [AnyRun, Lit('/'), Lit('l'), Lit('o'), Lit('g'), Lit('s')]

  /** `.*` followed by `/docs` */
  const DocsDir: seq<Atom> := [AnyRun, Lit('/'), Lit('d'), Lit('o'), Lit('c'), Lit('s')]

  lemma LogsDirMatches()
    ensures Compile(@".*/logs").Some? && Compile(@".*/logs").value == LogsDir
    ensures Search(LogsDir, "/data/logs")
  {
  }

  lemma DocsDirMatches()
    ensures Compile(@".*/docs").Some? && Compile(@".*/docs").value == DocsDir
    ensures Search(DocsDir, "/data/docs")
  {
  }

  lemma TxtCompiles()
    ensures Compile(@"./(.\.txt)").Some? && Compile(@"./(.\.txt)").value == FileAtoms("txt")
  {
    assert Compile(@"./(.\.txt)").value == [AnyChar, Lit('/'), AnyChar, Lit('.'), Lit('t'), Lit('x'), Lit('t')];
  }

  lemma JsonCompiles()
    ensures Compile(@"./(.\.json)").Some? && Compile(@"./(.\.json)").value == FileAtoms("json")
  {
    assert Compile(@"./(.\.json)").value == [AnyChar, Lit('/'), AnyChar, Lit('.'), Lit('j'), Lit('s'), Lit('o'), Lit('n')];
  }

  lemma PngCompiles()
    ensures Compile(@"./(.\.png)").Some? && Compile(@"./(.\.png)").value == FileAtoms("png")
  {
    assert Compile(@"./(.\.png)").value == [AnyChar, Lit('/'), AnyChar, Lit('.'), Lit('p'), Lit('n'), Lit('g')];
  }

  lemma DbCompiles()
    ensures Compile(@"./(.\.db)").Some? && Compile(@"./(.\.db)").value == FileAtoms("db")
  {
    assert Compile(@"./(.\.db)").value == [AnyChar, Lit('/'), AnyChar, Lit('.'), Lit('d'), Lit('b')];
  }

  lemma LogsRecentPath()
    ensures "/data/logs-recent.txt" == Path(["data", "logs-recent.txt"])
  {
  }

  lemma LogsRecentMisses()
    ensures !Search(FileAtoms("txt"), "/data/logs-recent.txt")
  {
    LogsRecentPath();
    LongSegmentPathMisses("txt", ["data", "logs-recent.txt"]);
  }

  lemma DocsIndexMisses()
    ensures !Search(FileAtoms("json"), "/data/docs/index.json")
  {
    assert "/data/docs/index.json" == Path(["data", "docs", "index.json"]);
    LongSegmentPathMisses("json", ["data", "docs", "index.json"]);
  }

  lemma EmailPath()
    ensures "/data/email.txt" == Path(["data", "email.txt"])
  {
  }

  lemma EmailMisses()
    ensures !Search(FileAtoms("txt"), "/data/email.txt")
  {
    EmailPath();
    LongSegmentPathMisses("txt", ["data", "email.txt"]);
  }

  lemma EmailSenderPath()
    ensures "/data/email-sender.txt" == Path(["data", "email-sender.txt"])
  {
  }

  lemma EmailSenderMisses()
    ensures !Search(FileAtoms("txt"), "/data/email-sender.txt")
  {
    EmailSenderPath();
    LongSegmentPathMisses("txt", ["data", "email-sender.txt"]);
  }

  lemma CreditCardTextPath()
    ensures "/data/credit-card.txt" == Path(["data", "credit-card.txt"])
  {
  }

  lemma CreditCardTextMisses()
    ensures !Search(FileAtoms("txt"), "/data/credit-card.txt")
  {
    CreditCardTextPath();
    LongSegmentPathMisses("txt", ["data", "credit-card.txt"]);
  }

  lemma CreditCardImagePath()
    ensures "/data/credit-card.png" == Path(["data", "credit-card.png"])
  {
  }

  lemma CreditCardImageMisses()
    ensures !Search(FileAtoms("png"), "/data/credit-card.png")
  {
    CreditCardImagePath();
    LongSegmentPathMisses("png", ["data", "credit-card.png"]);
  }

  lemma CommentsPath()
    ensures "/data/comments.txt" == Path(["data", "comments.txt"])
  {
  }

  lemma CommentsMisses()
    ensures !Search(FileAtoms("txt"), "/data/comments.txt")
  {
    CommentsPath();
    LongSegmentPathMisses("txt", ["data", "comments.txt"]);
  }

  lemma CommentsSimilarPath()
    ensures "/data/comments-similar.txt" == Path(["data", "comments-similar.txt"])
  {
  }

  lemma CommentsSimilarMisses()
    ensures !Search(FileAtoms("txt"), "/data/comments-similar.txt")
  {
    CommentsSimilarPath();
    LongSegmentPathMisses("txt", ["data", "comments-similar.txt"]);
  }

  lemma TicketSalesPath()
    ensures "/data/ticket-sales.db" == Path(["data", "ticket-sales.db"])
  {
  }

  lemma TicketSalesMisses()
    ensures !Search(FileAtoms("db"), "/data/ticket-sales.db")
  {
    TicketSalesPath();
    LongSegmentPathMisses("db", ["data", "ticket-sales.db"]);
  }

  lemma TicketSalesGoldPath()
    ensures "/data/ticket-sales-gold.txt" == Path(["data", "ticket-sales-gold.txt"])
  {
  }

  lemma TicketSalesGoldMisses()
    ensures !Search(FileAtoms("txt"), "/data/ticket-sales-gold.txt")
  {
    TicketSalesGoldPath();
    LongSegmentPathMisses("txt", ["data", "ticket-sales-gold.txt"]);
  }
}

/** Each default of A5 to A10 held against the schema it is declared in:
    every one has its declared type and meets its minimum, but only the two
    directory defaults match their own pattern. */
module DefaultPatterns {
  import opened Wrappers
  import opened Pattern
  import opened PathPatterns
  import opened Catalogue

  /** A schema whose string default `d` and compiled pattern `atoms` are
      known: the verdict is the search. */
  lemma Verdict(s: Schema, p: string, atoms: seq<Atom>, d: string)
    requires s.pattern == Some(p) && s.default == Some(Str(d))
    requires Compile(p).Some? && Compile(p).value == atoms
    ensures DefaultMeetsPattern(s) == Some(Search(atoms, d))
  {
  }

  /** A5: `/data/logs` matches its pattern; `/data/logs-recent.txt` does
      not match `./(.\.txt)`; `num_files` has no pattern. */
  lemma DefaultsA5()
    ensures DefaultsConform(OpA5)
    ensures DefaultMeetsPattern(OpA5.properties[0].schema) == Some(true)
    ensures DefaultMeetsPattern(OpA5.properties[1].schema) == Some(false)
    ensures DefaultMeetsPattern(OpA5.properties[2].schema) == None
  {
    LogsDirMatches();
    Verdict(OpA5.properties[0].schema, @".*/logs", LogsDir, "/data/logs");
    TxtCompiles();
    LogsRecentMisses();
    Verdict(OpA5.properties[1].schema, @"./(.\.txt)", FileAtoms("txt"), "/data/logs-recent.txt");
  }

  /** A6: `/data/docs` matches its pattern; `/data/docs/index.json` does
      not match `./(.\.json)`. */
  lemma DefaultsA6()
    ensures DefaultsConform(OpA6)
    ensures DefaultMeetsPattern(OpA6.properties[0].schema) == Some(true)
    ensures DefaultMeetsPattern(OpA6.properties[1].schema) == Some(false)
  {
    DocsDirMatches();
    Verdict(OpA6.properties[0].schema, @".*/docs", DocsDir, "/data/docs");
    JsonCompiles();
    DocsIndexMisses();
    Verdict(OpA6.properties[1].schema, @"./(.\.json)", FileAtoms("json"), "/data/docs/index.json");
  }

  /** A7: neither `/data/email.txt` nor `/data/email-sender.txt` matches
      `./(.\.txt)`. */
  lemma DefaultsA7()
    ensures DefaultsConform(OpA7)
    ensures DefaultMeetsPattern(OpA7.properties[0].schema) == Some(false)
    ensures DefaultMeetsPattern(OpA7.properties[1].schema) == Some(false)
  {
    TxtCompiles();
    EmailMisses();
    EmailSenderMisses();
    Verdict(OpA7.properties[0].schema, @"./(.\.txt)", FileAtoms("txt"), "/data/email.txt");
    Verdict(OpA7.properties[1].schema, @"./(.\.txt)", FileAtoms("txt"), "/data/email-sender.txt");
  }

  /** A8: `/data/credit-card.txt` does not match `./(.\.txt)`, nor
      `/data/credit-card.png` `./(.\.png)`. */
  lemma DefaultsA8()
    ensures DefaultsConform(OpA8)
    ensures DefaultMeetsPattern(OpA8.properties[0].schema) == Some(false)
    ensures DefaultMeetsPattern(OpA8.properties[1].schema) == Some(false)
  {
    TxtCompiles();
    PngCompiles();
    CreditCardTextMisses();
    CreditCardImageMisses();
    Verdict(OpA8.properties[0].schema, @"./(.\.txt)", FileAtoms("txt"), "/data/credit-card.txt");
    Verdict(OpA8.properties[1].schema, @"./(.\.png)", FileAtoms("png"), "/data/credit-card.png");
  }

  /** A9: neither `/data/comments.txt` nor `/data/comments-similar.txt`
      matches `./(.\.txt)`. */
  lemma DefaultsA9()
    ensures DefaultsConform(OpA9)
    ensures DefaultMeetsPattern(OpA9.properties[0].schema) == Some(false)
    ensures DefaultMeetsPattern(OpA9.properties[1].schema) == Some(false)
  {
    TxtCompiles();
    CommentsMisses();
    CommentsSimilarMisses();
    Verdict(OpA9.properties[0].schema, @"./(.\.txt)", FileAtoms("txt"), "/data/comments.txt");
    Verdict(OpA9.properties[1].schema, @"./(.\.txt)", FileAtoms("txt"), "/data/comments-similar.txt");
  }

  /** A10: `/data/ticket-sales.db` does not match `./(.\.db)`, nor
      `/data/ticket-sales-gold.txt` `./(.\.txt)`; `query` has no
      default. */
  lemma DefaultsA10()
    ensures DefaultsConform(OpA10)
    ensures DefaultMeetsPattern(OpA10.properties[0].schema) == Some(false)
    ensures DefaultMeetsPattern(OpA10.properties[1].schema) == Some(false)
    ensures DefaultMeetsPattern(OpA10.properties[2].schema) == None
  {
    DbCompiles();
    TxtCompiles();
    TicketSalesMisses();
    TicketSalesGoldMisses();
    Verdict(OpA10.properties[0].schema, @"./(.\.db)", FileAtoms("db"), "/data/ticket-sales.db");
    Verdict(OpA10.properties[1].schema, @"./(.\.txt)", FileAtoms("txt"), "/data/ticket-sales-gold.txt");
  }
}
