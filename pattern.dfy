/** The part of Python's `re` syntax that the catalogue's path patterns use:
    literal characters, `\` escapes of punctuation, `.` (any character but
    a newline), `.*`, and parentheses, which group without changing whether a
    search succeeds. `re.search` looks for a match starting at any position;
    the match need not reach the end of the text. */
module Pattern {
  import opened Wrappers

  datatype Atom =
    | Lit(c: char)  // the character itself
    | AnyChar       // `.`
    | AnyRun        // `.*`

  /** Characters that are operators in `re` and have no meaning here. */
  predicate IsOperator(c: char) {
    c == '*' || c == '+' || c == '?' || c == '[' || c == ']' || c == '{' || c == '}' || c == '|' || c == '^' || c == '$'
  }

  predicate IsAlphanumeric(c: char) {
    ('a' <= c <= 'z') || ('A' <= c <= 'Z') || ('0' <= c <= '9')
  }

  /** The atoms of `p[i..]` inside `depth` open parentheses, or `None` when
      it uses syntax outside this subset (a character class such as `\d`,
      a quantifier other than `.*`, an alternative) or its parentheses do
      not balance. */
  function CompileFrom(p: string, i: nat, depth: nat): Option<seq<Atom>>
    requires i <= |p|
    decreases |p| - i
  {
    if i == |p| then (if depth == 0 then Some([]) else None)
    else if p[i] == '(' then CompileFrom(p, i + 1, depth + 1)
    else if p[i] == ')' then (if depth == 0 then None else CompileFrom(p, i + 1, depth - 1))
    else if p[i] == '.' then
      if i + 1 < |p| && p[i + 1] == '*' then Prepend(AnyRun, CompileFrom(p, i + 2, depth))
      else Prepend(AnyChar, CompileFrom(p, i + 1, depth))
    else if p[i] == '\\' then
      if i + 1 < |p| && !IsAlphanumeric(p[i + 1]) then Prepend(Lit(p[i + 1]), CompileFrom(p, i + 2, depth))
      else None
    else if IsOperator(p[i]) then None
    else Prepend(Lit(p[i]), CompileFrom(p, i + 1, depth))
  }

  function Prepend(a: Atom, rest: Option<seq<Atom>>): Option<seq<Atom>> {
    match rest
    case None => None
    case Some(atoms) => Some([a] + atoms)
  }

  function Compile(p: string): Option<seq<Atom>> {
    CompileFrom(p, 0, 0)
  }

  /** The atoms from `a` on match a prefix of `s[i..]`. */
  predicate MatchesAt(atoms: seq<Atom>, a: nat, s: string, i: nat)
    requires a <= |atoms| && i <= |s|
    decreases |s| - i, |atoms| - a
  {
    if a == |atoms| then true
    else match atoms[a]
      case Lit(c) => i < |s| && s[i] == c && MatchesAt(atoms, a + 1, s, i + 1)
      case AnyChar => i < |s| && s[i] != '\n' && MatchesAt(atoms, a + 1, s, i + 1)
      case AnyRun => MatchesAt(atoms, a + 1, s, i) || (i < |s| && s[i] != '\n' && MatchesAt(atoms, a, s, i + 1))
  }

  /** A match starts at `i` or later. */
  predicate SearchFrom(atoms: seq<Atom>, s: string, i: nat)
    requires i <= |s|
    decreases |s| - i
  {
    MatchesAt(atoms, 0, s, i) || (i < |s| && SearchFrom(atoms, s, i + 1))
  }

  /** `re.search(p, s) is not None` for the compiled `p`. */
  predicate Search(atoms: seq<Atom>, s: string) {
    SearchFrom(atoms, s, 0)
  }

  /** Some position from `i` on starts a match. */
  predicate MatchStartsFrom(atoms: seq<Atom>, s: string, i: nat) {
    exists j: nat | i <= j <= |s| :: MatchesAt(atoms, 0, s, j)
  }

  /** A search from `i` succeeds exactly when a match starts at some
      position from `i` on. */
  lemma {:induction false} SearchFromFindsStart(atoms: seq<Atom>, s: string, i: nat)
    requires i <= |s|
    ensures SearchFrom(atoms, s, i) <==> MatchStartsFrom(atoms, s, i)
    decreases |s| - i
  {
    if MatchesAt(atoms, 0, s, i) {
    } else if i < |s| {
      SearchFromFindsStart(atoms, s, i + 1);
      if MatchStartsFrom(atoms, s, i) {
        var j: nat :| i <= j <= |s| && MatchesAt(atoms, 0, s, j);
        assert i + 1 <= j;
      }
    }
  }

  /** The atoms of a text made of literal characters only. */
  function Literal(t: string): (atoms: seq<Atom>)
    ensures |atoms| == |t|
    ensures forall k | 0 <= k < |t| :: atoms[k] == Lit(t[k])
  {
    if t == [] then [] else [Lit(t[0])] + Literal(t[1..])
  }

  /** Literal atoms from `a` on match at `i` exactly when the rest of the
      text appears at `i`. */
  lemma {:induction false} LiteralMatchesAt(t: string, a: nat, s: string, i: nat)
    requires a <= |t| && i <= |s|
    ensures MatchesAt(Literal(t), a, s, i) <==> i + |t| - a <= |s| && s[i..i + |t| - a] == t[a..]
    decreases |t| - a
  {
    if a < |t| {
      if i < |s| && s[i] == t[a] {
        LiteralMatchesAt(t, a + 1, s, i + 1);
        if i + |t| - a <= |s| {
          assert s[i..i + |t| - a] == [s[i]] + s[i + 1..i + |t| - a];
          assert t[a..] == [t[a]] + t[a + 1..];
        }
      } else if i + |t| - a <= |s| {
        assert s[i..i + |t| - a][0] == s[i];
        assert t[a..][0] == t[a];
      }
    }
  }

  /** `t` appears in `s` at position `j`. */
  predicate OccursAt(t: string, s: string, j: int) {
    0 <= j && j + |t| <= |s| && s[j..j + |t|] == t
  }

  /** A pattern of literal characters is found exactly when the text
      contains it. */
  lemma LiteralSearch(t: string, s: string)
    ensures Search(Literal(t), s) <==> exists j: nat | j <= |s| :: OccursAt(t, s, j)
  {
    SearchFromFindsStart(Literal(t), s, 0);
    forall j: nat | j <= |s|
      ensures MatchesAt(Literal(t), 0, s, j) <==> OccursAt(t, s, j)
    {
      LiteralMatchesAt(t, 0, s, j);
      assert t[0..] == t;
    }
  }

  /** Text with no operator, escape, dot or parenthesis compiles to its own
      characters. */
  lemma {:induction false} PlainTextCompiles(p: string, i: nat)
    requires i <= |p|
    requires forall k | i <= k < |p| :: !IsOperator(p[k]) && p[k] !in "\\.()"
    ensures CompileFrom(p, i, 0) == Some(Literal(p[i..]))
    decreases |p| - i
  {
    if i < |p| {
      PlainTextCompiles(p, i + 1);
      assert p[i..] == [p[i]] + p[i + 1..];
    }
  }
}
