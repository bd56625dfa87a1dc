/**
 * The chat-line grammar of the watcher, the regular expression
 *
 *     Chat \(from '([^']+)'(?:,.*?)\): '([^']+)': (.+)$
 *
 * applied with Python's `re.search` to a line, followed by stripping spaces
 * and quotes from the message.
 *
 * `Shape` is the reference definition: every way the pattern can match the
 * line, written as a decomposition of the line into its pieces. `Search` is
 * the matcher: it walks start positions from the left and, at each start,
 * qualifier ends from the shortest, as Python's backtracking does, and the
 * lemmas below show that it finds exactly the match Python reports.
 */
module ChatParser {
  import opened Wrappers
  import opened Text

  /** The literal text before the platform id. */
  const Opener: string := "Chat (from '"
  /** The literal text between the qualifier and the user name. */
  const Closer: string := "): '"
  /** The literal text between the user name and the message. */
  const Separator: string := "': "
  /** The characters `strip(" '\"")` removes from the message. */
  const MessageTrim: set<char> := {' ', '\'', '"'}

  /** The three fields of a chat line, as the worker emits them. */
  datatype ChatLine = ChatLine(platformId: string, user: string, message: string)

  /**
   * The pieces of a line matched by the pattern: what precedes the match,
   * group 1, the qualifier after the mandatory comma, group 2, group 3, and
   * what follows the match (nothing, or the one final newline `$` may skip).
   */
  datatype Groups = Groups(pre: string, platformId: string, qualifier: string,
                           user: string, rest: string, tail: string)

  predicate NoQuote(s: string) { '\'' !in s }
  predicate NoNewline(s: string) { '\n' !in s }

  /** The concatenation of `parts`, in order. */
  function Join(parts: seq<string>): string
    decreases |parts|
  {
    if parts == [] then [] else Join(parts[..|parts| - 1]) + parts[|parts| - 1]
  }

  /** The pieces of a matched line, literal text included, in the order the pattern spells them. */
  function Pieces(g: Groups): seq<string> {
    [g.pre, Opener, g.platformId, "',", g.qualifier, Closer, g.user, Separator, g.rest, g.tail]
  }

  /** The line as the pieces of `g` spell it. */
  function Spell(g: Groups): string {
    Join(Pieces(g))
  }

  /**
   * The pattern matches `line` with the pieces `g`: `[^']+` groups are
   * non-empty and quote-free, `.` never matches a newline, `.+` is non-empty,
   * and `$` stands at the end or just before a final newline.
   */
  predicate Shape(line: string, g: Groups) {
    && g.platformId != [] && NoQuote(g.platformId)
    && NoNewline(g.qualifier)
    && g.user != [] && NoQuote(g.user)
    && g.rest != [] && NoNewline(g.rest)
    && (g.tail == [] || g.tail == "\n")
    && line == Spell(g)
  }

  /** The index of the first quote at or after `i`, or `|line|` if none. */
  function NextQuote(line: string, i: nat): (r: nat)
    requires i <= |line|
    ensures i <= r <= |line| && NoQuote(line[i..r])
    ensures r < |line| ==> line[r] == '\''
    decreases |line| - i
  {
    if i == |line| || line[i] == '\'' then i
    else
      var r := NextQuote(line, i + 1);
      assert line[i..r] == [line[i]] + line[i + 1..r];
      r
  }

  /** Where `$` may match: before a final newline, otherwise at the very end. */
  function RestEnd(line: string): nat {
    if |line| > 0 && line[|line| - 1] == '\n' then |line| - 1 else |line|
  }

  /**
   * The pattern matches `line` starting at `s` with the qualifier's `.*?`
   * ending at `p` (where `\)` stands). Each `[^']+` group can only be the
   * whole quote-free run up to the next quote, and `.+` followed by `$` can
   * only run to `RestEnd`, so `s` and `p` fix the whole match.
   */
  predicate MatchesAt(line: string, s: nat, p: nat) {
    var a := s + |Opener|;
    && a <= |line| && line[s..a] == Opener
    && var q := NextQuote(line, a);
    && a < q && q + 2 <= p && p + |Closer| <= |line|
    && line[q..q + 2] == "'," && line[p..p + |Closer|] == Closer
    && NoNewline(line[q + 2..p])
    && var u := NextQuote(line, p + |Closer|);
    && p + |Closer| < u && u + |Separator| <= |line| && line[u..u + |Separator|] == Separator
    && u + |Separator| < RestEnd(line) && NoNewline(line[u + |Separator|..RestEnd(line)])
  }

  /** The pieces of the match that starts at `s` with its qualifier ending at `p`. */
  function GroupsAt(line: string, s: nat, p: nat): Groups
    requires MatchesAt(line, s, p)
  {
    var a := s + |Opener|;
    var q := NextQuote(line, a);
    var u := NextQuote(line, p + |Closer|);
    var e := RestEnd(line);
    Groups(line[..s], line[a..q], line[q + 2..p], line[p + |Closer|..u], line[u + |Separator|..e], line[e..])
  }

  /** The first qualifier end at or after `p`, for a match starting at `s` (the lazy `.*?`). */
  function FindQualEnd(line: string, s: nat, p: nat): (r: Option<nat>)
    ensures r.Some? ==> p <= r.value && MatchesAt(line, s, r.value)
    ensures r.Some? ==> forall p': nat :: p <= p' < r.value ==> !MatchesAt(line, s, p')
    ensures r.None? ==> forall p': nat :: p <= p' ==> !MatchesAt(line, s, p')
    decreases |line| - p
  {
    if p + |Closer| > |line| then None
    else if MatchesAt(line, s, p) then Some(p)
    else FindQualEnd(line, s, p + 1)
  }

  /** The leftmost start at or after `s` from which the pattern matches, with its qualifier end. */
  function FindMatch(line: string, s: nat): (r: Option<(nat, nat)>)
    ensures r.Some? ==> s <= r.value.0 && MatchesAt(line, r.value.0, r.value.1)
    ensures r.Some? ==> forall s': nat, p': nat :: s <= s' < r.value.0 ==> !MatchesAt(line, s', p')
    ensures r.Some? ==> forall p': nat :: p' < r.value.1 ==> !MatchesAt(line, r.value.0, p')
    ensures r.None? ==> forall s': nat, p': nat :: s <= s' ==> !MatchesAt(line, s', p')
    decreases |line| - s
  {
    if s + |Opener| > |line| then None
    else match FindQualEnd(line, s, 0)
      case Some(p) => Some((s, p))
      case None => FindMatch(line, s + 1)
  }

  /**
   * Python's `CHAT_LINE_RE.search(line)`: the groups of the match it reports,
   * if any. What it reports fits the pattern, and it reports nothing only when
   * no decomposition of the line fits the pattern.
   */
  function Search(line: string): (r: Option<Groups>)
    ensures r.Some? ==> Shape(line, r.value)
    ensures r.None? <==> forall g :: !Shape(line, g)
  {
    match FindMatch(line, 0)
    case Some((s, p)) =>
      MatchShape(line, s, p);
      Some(GroupsAt(line, s, p))
    case None =>
      NoMatchNoShape(line);
      None
  }

  /**
   * Search followed by the worker's field extraction: groups 1 and 2, and
   * group 3 stripped of spaces and quotes. The platform id and the user name
   * are non-empty and quote-free, and the message is already stripped.
   */
  function Parse(line: string): (r: Option<ChatLine>)
    ensures r.None? <==> forall g :: !Shape(line, g)
    ensures r.Some? ==> && r.value.platformId != [] && NoQuote(r.value.platformId)
                        && r.value.user != [] && NoQuote(r.value.user)
                        && (r.value.message != [] ==>
                              r.value.message[0] !in MessageTrim && r.value.message[|r.value.message| - 1] !in MessageTrim)
                        && Strip(r.value.message, MessageTrim) == r.value.message
  {
    match Search(line)
    case Some(g) =>
      StripIdempotent(g.rest, MessageTrim);
      Some(ChatLine(g.platformId, g.user, Strip(g.rest, MessageTrim)))
    case None => None
  }

  // ---------------------------------------------------------------------
  // The matcher against the reference definition

  /** A quote-free stretch followed by a quote: `NextQuote` stops exactly at that quote. */
  lemma NextQuoteAt(line: string, i: nat, j: nat)
    requires i <= j < |line| && NoQuote(line[i..j]) && line[j] == '\''
    ensures NextQuote(line, i) == j
  {
  }

  /** The qualifier end of a decomposition: where `\)` stands in the spelled line. */
  function QualEnd(g: Groups): nat {
    |g.pre| + |Opener| + |g.platformId| + 2 + |g.qualifier|
  }

  /** Joining one more part appends it. */
  lemma JoinStep(parts: seq<string>, k: nat)
    requires k < |parts|
    ensures Join(parts[..k + 1]) == Join(parts[..k]) + parts[k]
  {
    assert parts[..k + 1][..k] == parts[..k];
  }

  /** Joining a prefix of the parts gives a prefix of the joined string. */
  lemma {:induction false} JoinPrefix(parts: seq<string>, k: nat)
    requires k <= |parts|
    ensures |Join(parts[..k])| <= |Join(parts)| && Join(parts)[..|Join(parts[..k])|] == Join(parts[..k])
    decreases |parts|
  {
    if k == |parts| {
      assert parts[..k] == parts;
    } else {
      var init := parts[..|parts| - 1];
      assert init[..k] == parts[..k];
      JoinPrefix(init, k);
    }
  }

  /** Where the `k`-th part sits in the joined string. */
  lemma JoinPart(parts: seq<string>, k: nat)
    requires k < |parts|
    ensures |Join(parts[..k + 1])| == |Join(parts[..k])| + |parts[k]| <= |Join(parts)|
    ensures Join(parts)[|Join(parts[..k])|..|Join(parts[..k + 1])|] == parts[k]
  {
    JoinStep(parts, k);
    JoinPrefix(parts, k + 1);
    var whole, o := Join(parts), |Join(parts[..k])|;
    assert whole[o..o + |parts[k]|] == whole[..o + |parts[k]|][o..];
  }

  /** Where each piece of a decomposition sits in the spelled line. */
  lemma SpellPieces(g: Groups)
    ensures var line, s := Spell(g), |g.pre|;
            var a := s + |Opener|;
            var q := a + |g.platformId|;
            var p := QualEnd(g);
            var u := p + |Closer| + |g.user|;
            var m := u + |Separator|;
            var e := m + |g.rest|;
            && |line| == e + |g.tail|
            && line[s..a] == Opener && line[a..q] == g.platformId && line[q..q + 2] == "',"
            && line[q + 2..p] == g.qualifier && line[p..p + |Closer|] == Closer
            && line[p + |Closer|..u] == g.user && line[u..m] == Separator
            && line[m..e] == g.rest && line[..s] == g.pre && line[e..] == g.tail
  {
    var ps := Pieces(g);
    JoinFront(ps);
    JoinBack(ps, QualEnd(g));
  }

  /** Where the `k`-th part sits, given where it starts. */
  lemma JoinPartAt(parts: seq<string>, k: nat, o: nat)
    requires k < |parts| && |Join(parts[..k])| == o
    ensures |Join(parts[..k + 1])| == o + |parts[k]| <= |Join(parts)|
    ensures Join(parts)[o..o + |parts[k]|] == parts[k]
  {
    JoinPart(parts, k);
  }

  /** Where the first five of ten parts sit in their concatenation. */
  lemma JoinFront(ps: seq<string>)
    requires |ps| == 10
    ensures var w := Join(ps);
            var s := |ps[0]|;
            var a := s + |ps[1]|;
            var q := a + |ps[2]|;
            var p := q + |ps[3]| + |ps[4]|;
            && |Join(ps[..5])| == p <= |w|
            && w[..s] == ps[0] && w[s..a] == ps[1] && w[a..q] == ps[2]
            && w[q..q + |ps[3]|] == ps[3] && w[q + |ps[3]|..p] == ps[4]
  {
    var w := Join(ps);
    var s := |ps[0]|;
    var a := s + |ps[1]|;
    var q := a + |ps[2]|;
    var r := q + |ps[3]|;
    assert ps[..0] == [];
    JoinPartAt(ps, 0, 0);
    assert w[..s] == w[0..s];
    JoinPartAt(ps, 1, s);
    JoinPartAt(ps, 2, a);
    JoinPartAt(ps, 3, q);
    JoinPartAt(ps, 4, r);
  }

  /** Where the last five of ten parts sit in their concatenation, given where the sixth starts. */
  lemma JoinBack(ps: seq<string>, p: nat)
    requires |ps| == 10 && |Join(ps[..5])| == p
    ensures var w := Join(ps);
            var c := p + |ps[5]|;
            var u := c + |ps[6]|;
            var m := u + |ps[7]|;
            var e := m + |ps[8]|;
            && |w| == e + |ps[9]|
            && w[p..c] == ps[5] && w[c..u] == ps[6] && w[u..m] == ps[7]
            && w[m..e] == ps[8] && w[e..] == ps[9]
  {
    var w := Join(ps);
    var c := p + |ps[5]|;
    var u := c + |ps[6]|;
    var m := u + |ps[7]|;
    var e := m + |ps[8]|;
    JoinPartAt(ps, 5, p);
    JoinPartAt(ps, 6, c);
    JoinPartAt(ps, 7, u);
    JoinPartAt(ps, 8, m);
    JoinPartAt(ps, 9, e);
    assert ps[..10] == ps;
  }

  /** The spelled line written out as one concatenation. */
  lemma SpellIs(g: Groups)
    ensures Spell(g) == g.pre + Opener + g.platformId + "'," + g.qualifier + Closer + g.user + Separator + g.rest + g.tail
  {
    var ps := Pieces(g);
    assert ps[..0] == [];
    JoinStep(ps, 0);
    JoinStep(ps, 1);
    JoinStep(ps, 2);
    JoinStep(ps, 3);
    JoinStep(ps, 4);
    JoinStep(ps, 5);
    JoinStep(ps, 6);
    JoinStep(ps, 7);
    JoinStep(ps, 8);
    JoinStep(ps, 9);
    assert ps[..10] == ps;
  }

  /** Every match admitted by the reference definition is one `MatchesAt` sees, with the same pieces. */
  lemma {:induction false} ShapeMatches(line: string, g: Groups)
    requires Shape(line, g)
    ensures MatchesAt(line, |g.pre|, QualEnd(g))
    ensures GroupsAt(line, |g.pre|, QualEnd(g)) == g
  {
    var q, u := ShapeQuotes(line, g);
    GroupsAtIs(line, |g.pre|, q, QualEnd(g), u);
  }

  /** The positions of the two closing quotes of a decomposition, and the match they give. */
  lemma ShapeQuotes(line: string, g: Groups) returns (q: nat, u: nat)
    requires Shape(line, g)
    ensures MatchesAt(line, |g.pre|, QualEnd(g))
    ensures q == NextQuote(line, |g.pre| + |Opener|) && u == NextQuote(line, QualEnd(g) + |Closer|)
    ensures line[..|g.pre|] == g.pre && line[|g.pre| + |Opener|..q] == g.platformId
    ensures line[q + 2..QualEnd(g)] == g.qualifier && line[QualEnd(g) + |Closer|..u] == g.user
    ensures line[u + |Separator|..RestEnd(line)] == g.rest && line[RestEnd(line)..] == g.tail
  {
    q := |g.pre| + |Opener| + |g.platformId|;
    u := QualEnd(g) + |Closer| + |g.user|;
    SpellMatches(g);
    SpellQuotes(g);
    SpellRestEnd(g);
    SpellPieces(g);
  }

  /** In a spelled line, the groups' closing quotes are the first quotes after their opening ones. */
  lemma SpellQuotes(g: Groups)
    requires NoQuote(g.platformId) && NoQuote(g.user)
    ensures var line, p := Spell(g), QualEnd(g);
            && |line| == p + |Closer| + |g.user| + |Separator| + |g.rest| + |g.tail|
            && NextQuote(line, |g.pre| + |Opener|) == |g.pre| + |Opener| + |g.platformId|
            && NextQuote(line, p + |Closer|) == p + |Closer| + |g.user|
  {
    var line := Spell(g);
    var a := |g.pre| + |Opener|;
    var q := a + |g.platformId|;
    var c := QualEnd(g) + |Closer|;
    var u := c + |g.user|;
    SpellPieces(g);
    assert line[q] == line[q..q + 2][0];
    assert line[u] == line[u..u + |Separator|][0];
    NextQuoteAt(line, a, q);
    NextQuoteAt(line, c, u);
  }

  /** In a spelled line, `$` stands right after group 3. */
  lemma SpellRestEnd(g: Groups)
    requires g.rest != [] && NoNewline(g.rest) && (g.tail == [] || g.tail == "\n")
    ensures RestEnd(Spell(g)) == QualEnd(g) + |Closer| + |g.user| + |Separator| + |g.rest|
  {
    var line := Spell(g);
    var m := QualEnd(g) + |Closer| + |g.user| + |Separator|;
    var e := m + |g.rest|;
    SpellPieces(g);
    if g.tail == "\n" {
      assert line[|line| - 1] == line[e..][0];
    } else {
      assert line[|line| - 1] == line[m..e][e - 1 - m];
    }
  }

  /** Where the literal text of the pattern stands in a spelled line, and the newline-free groups between. */
  lemma SpellLiterals(g: Groups)
    requires NoNewline(g.qualifier) && NoNewline(g.rest)
    ensures var line, s, p := Spell(g), |g.pre|, QualEnd(g);
            var a, q, c := s + |Opener|, s + |Opener| + |g.platformId|, p + |Closer|;
            var u := c + |g.user|;
            var m := u + |Separator|;
            var e := m + |g.rest|;
            && |line| == e + |g.tail| && line[s..a] == Opener && line[q..q + 2] == "',"
            && line[p..c] == Closer && line[u..m] == Separator
            && NoNewline(line[q + 2..p]) && NoNewline(line[m..e])
  {
    SpellPieces(g);
  }

  /** A decomposition the pattern admits spells a line that `MatchesAt` sees. */
  lemma SpellMatches(g: Groups)
    requires g.platformId != [] && NoQuote(g.platformId) && NoNewline(g.qualifier)
    requires g.user != [] && NoQuote(g.user) && g.rest != [] && NoNewline(g.rest)
    requires g.tail == [] || g.tail == "\n"
    ensures MatchesAt(Spell(g), |g.pre|, QualEnd(g))
  {
    var line := Spell(g);
    var s := |g.pre|;
    var a := s + |Opener|;
    var q := a + |g.platformId|;
    var p := QualEnd(g);
    var c := p + |Closer|;
    var u := c + |g.user|;
    var m := u + |Separator|;
    var e := m + |g.rest|;
    SpellLiterals(g);
    SpellQuotes(g);
    SpellRestEnd(g);
  }

  /** The pieces `GroupsAt` cuts, with the two quote positions named. */
  lemma GroupsAtIs(line: string, s: nat, q: nat, p: nat, u: nat)
    requires MatchesAt(line, s, p)
    requires NextQuote(line, s + |Opener|) == q && NextQuote(line, p + |Closer|) == u
    ensures GroupsAt(line, s, p)
         == Groups(line[..s], line[s + |Opener|..q], line[q + 2..p], line[p + |Closer|..u],
                   line[u + |Separator|..RestEnd(line)], line[RestEnd(line)..])
  {
  }

  /** Every match `MatchesAt` sees is admitted by the reference definition. */
  lemma MatchShape(line: string, s: nat, p: nat)
    requires MatchesAt(line, s, p)
    ensures Shape(line, GroupsAt(line, s, p)) && |GroupsAt(line, s, p).pre| == s && QualEnd(GroupsAt(line, s, p)) == p
  {
    var q := NextQuote(line, s + |Opener|);
    var u := NextQuote(line, p + |Closer|);
    GroupsAtIs(line, s, q, p, u);
    CutsShape(line, s, q, p, u);
    GroupsAtLengths(line, s, p);
  }

  /** The pieces cut at the positions of a match fit the pattern. */
  lemma CutsShape(line: string, s: nat, q: nat, p: nat, u: nat)
    requires MatchesAt(line, s, p)
    requires NextQuote(line, s + |Opener|) == q && NextQuote(line, p + |Closer|) == u
    ensures Shape(line, Groups(line[..s], line[s + |Opener|..q], line[q + 2..p], line[p + |Closer|..u],
                               line[u + |Separator|..RestEnd(line)], line[RestEnd(line)..]))
  {
    var e := RestEnd(line);
    assert line[e..] == [] || line[e..] == "\n";
    SpellOfCuts(line, s, q, p, u, e);
  }

  /** Cutting a line at the given positions and spelling the pieces gives the line back. */
  lemma SpellOfCuts(line: string, s: nat, q: nat, p: nat, u: nat, e: nat)
    requires s + |Opener| <= q && q + 2 <= p && p + |Closer| <= u && u + |Separator| <= e <= |line|
    requires line[s..s + |Opener|] == Opener && line[q..q + 2] == "',"
    requires line[p..p + |Closer|] == Closer && line[u..u + |Separator|] == Separator
    ensures Spell(Groups(line[..s], line[s + |Opener|..q], line[q + 2..p], line[p + |Closer|..u],
                         line[u + |Separator|..e], line[e..])) == line
  {
    var a, c, m := s + |Opener|, p + |Closer|, u + |Separator|;
    var g := Groups(line[..s], line[a..q], line[q + 2..p], line[c..u], line[m..e], line[e..]);
    var ps := Pieces(g);
    assert ps[..0] == [];
    JoinGrow(ps, 0, line, 0, s);
    JoinGrow(ps, 1, line, s, a);
    JoinGrow(ps, 2, line, a, q);
    JoinGrow(ps, 3, line, q, q + 2);
    JoinGrow(ps, 4, line, q + 2, p);
    JoinGrow(ps, 5, line, p, c);
    JoinGrow(ps, 6, line, c, u);
    JoinGrow(ps, 7, line, u, m);
    JoinGrow(ps, 8, line, m, e);
    JoinGrow(ps, 9, line, e, |line|);
    assert ps[..10] == ps;
  }

  /** Joining one more part that continues a prefix of `line` gives a longer prefix. */
  lemma JoinGrow(parts: seq<string>, k: nat, line: string, x: nat, y: nat)
    requires k < |parts| && x <= y <= |line|
    requires Join(parts[..k]) == line[..x] && parts[k] == line[x..y]
    ensures Join(parts[..k + 1]) == line[..y]
  {
    JoinStep(parts, k);
    PrefixExtend(line, x, y);
  }

  /** A prefix of the line is a shorter prefix followed by the slice between them. */
  lemma PrefixExtend(line: string, i: nat, j: nat)
    requires i <= j <= |line|
    ensures line[..j] == line[..i] + line[i..j]
  {
  }

  /** Two matches with the same start and the same qualifier length are the same match. */
  lemma ShapeUnique(line: string, g1: Groups, g2: Groups)
    requires Shape(line, g1) && Shape(line, g2)
    requires |g1.pre| == |g2.pre| && |g1.qualifier| == |g2.qualifier|
    ensures g1 == g2
  {
    var q1, u1 := ShapeQuotes(line, g1);
    var q2, u2 := ShapeQuotes(line, g2);
    assert QualEnd(g1) == QualEnd(g2);
    ShapeMatches(line, g1);
    ShapeMatches(line, g2);
  }

  /**
   * `Search` reports the match Python does: among all matches, the one with
   * the leftmost start and, for that start, the shortest qualifier.
   */
  lemma SearchLeftmostLazy(line: string, g: Groups)
    requires Shape(line, g)
    ensures Search(line).Some?
    ensures |Search(line).value.pre| < |g.pre|
         || (|Search(line).value.pre| == |g.pre| && |Search(line).value.qualifier| <= |g.qualifier|)
  {
    ShapeMatches(line, g);
    var r := FindMatch(line, 0);
    assert r.Some?;
    var (s, p) := r.value;
    GroupsAtLengths(line, s, p);
    if s == |g.pre| {
      assert p <= QualEnd(g);
      GroupsAtLengths(line, s, QualEnd(g));
    }
  }

  /** When no start and qualifier end fit, no decomposition of the line fits the pattern. */
  lemma NoMatchNoShape(line: string)
    requires FindMatch(line, 0).None?
    ensures forall g :: !Shape(line, g)
  {
    forall g | Shape(line, g) ensures false {
      ShapeMatches(line, g);
    }
  }

  /** The lengths of the pieces `GroupsAt` cuts that place the match: its start and its qualifier. */
  lemma GroupsAtLengths(line: string, s: nat, p: nat)
    requires MatchesAt(line, s, p)
    ensures |GroupsAt(line, s, p).pre| == s
    ensures |GroupsAt(line, s, p).qualifier| == p - NextQuote(line, s + |Opener|) - 2
    ensures QualEnd(GroupsAt(line, s, p)) == p
  {
  }

  // ---------------------------------------------------------------------
  // What a parsed chat line looks like

  /**
   * On a match, the three fields come from the decomposition that `Search`
   * reports: groups 1 and 2, and group 3 stripped.
   */
  lemma ParseFields(line: string)
    requires Parse(line).Some?
    ensures var c := Parse(line).value;
            exists g :: Shape(line, g) && Search(line) == Some(g)
                     && g.platformId == c.platformId && g.user == c.user
                     && c.message == Strip(g.rest, MessageTrim)
  {
    var g := Search(line).value;
    assert Parse(line).value == ChatLine(g.platformId, g.user, Strip(g.rest, MessageTrim));
  }

  /** The qualifier comma is mandatory: a line without any comma never parses. */
  lemma ParseNeedsComma(line: string)
    requires ',' !in line
    ensures Parse(line).None?
  {
    if FindMatch(line, 0).Some? {
      var (s, p) := FindMatch(line, 0).value;
      NoCommaNoMatch(line, s, p);
    }
  }

  /** Without a comma no start and qualifier end fit the pattern. */
  lemma NoCommaNoMatch(line: string, s: nat, p: nat)
    requires ',' !in line
    ensures !MatchesAt(line, s, p)
  {
    if MatchesAt(line, s, p) {
      var q := NextQuote(line, s + |Opener|);
      SliceAt(line, q, q + 2, q + 1);
      assert false;
    }
  }

  /** A character of a slice is the character of the line at the corresponding position. */
  lemma SliceAt(line: string, i: nat, j: nat, k: nat)
    requires i <= k < j <= |line|
    ensures line[i..j][k - i] == line[k]
  {
  }

  /** A chat line without the `, qualifier` part is not recognised. */
  lemma ExampleWithoutQualifier()
    ensures Parse("Chat (from 'Steam_1'): 'Zed': hi").None?
  {
    ParseNeedsComma("Chat (from 'Steam_1'): 'Zed': hi");
  }

  /**
   * A chat line as the game writes it: the opener, the platform id, the
   * comma-led qualifier, the user name and the message.
   */
  function ChatText(platformId: string, qualifier: string, user: string, message: string): string {
    Opener + platformId + "'," + qualifier + Closer + user + Separator + message
  }

  /** `ChatText` is the spelling of the decomposition with nothing before and after the match. */
  lemma ChatTextSpell(platformId: string, qualifier: string, user: string, message: string)
    ensures Spell(Groups("", platformId, qualifier, user, message, "")) == ChatText(platformId, qualifier, user, message)
  {
    SpellIs(Groups("", platformId, qualifier, user, message, ""));
    assert "" + ChatText(platformId, qualifier, user, message) + "" == ChatText(platformId, qualifier, user, message);
  }

  /**
   * At one start, a longer qualifier runs past a `)` at which the lazy
   * qualifier could have stopped: the `)` at the shorter end `p'` lies
   * inside the longer qualifier.
   */
  lemma LazyQualifier(line: string, s: nat, p: nat, p': nat)
    requires MatchesAt(line, s, p) && MatchesAt(line, s, p') && p' < p
    ensures NextQuote(line, s + |Opener|) + 2 <= p' && line[p'] == ')'
    ensures ')' in line[NextQuote(line, s + |Opener|) + 2..p]
  {
    var q := NextQuote(line, s + |Opener|);
    SliceAt(line, p', p' + |Closer|, p');
    ParenInside(line, line[q + 2..p], q + 2, p, p');
  }

  /**
   * When the pattern matches at the very start of the line, `Search` reports
   * that match, cut at the qualifier end `p` if the qualifier up to `p` has
   * no `)` at which the lazy `.*?` could have stopped earlier.
   */
  lemma SearchFirstStart(line: string, p: nat)
    requires MatchesAt(line, 0, p) && ')' !in GroupsAt(line, 0, p).qualifier
    ensures Search(line) == Some(GroupsAt(line, 0, p))
  {
    var r := FindMatch(line, 0);
    assert r.Some? && r.value.0 == 0;
    if r.value.1 < p {
      LazyQualifier(line, 0, p, r.value.1);
      assert false;
    }
    assert r == Some((0, p));
    SearchOfMatch(line, 0, p);
  }

  /** `Search` reports the groups at the start and qualifier end `FindMatch` finds. */
  lemma SearchOfMatch(line: string, s: nat, p: nat)
    requires FindMatch(line, 0) == Some((s, p))
    ensures Search(line) == Some(GroupsAt(line, s, p))
  {
  }


  /**
   * A well-formed chat line parses to its own fields: the platform id, the
   * user name and the message stripped of spaces and quotes, whatever the
   * qualifier, as long as the qualifier has no `)` at which the lazy `.*?`
   * could stop early.
   */
  lemma ParseChatText(platformId: string, qualifier: string, user: string, message: string)
    requires platformId != [] && NoQuote(platformId)
    requires NoNewline(qualifier) && ')' !in qualifier
    requires user != [] && NoQuote(user)
    requires message != [] && NoNewline(message)
    ensures Parse(ChatText(platformId, qualifier, user, message))
         == Some(ChatLine(platformId, user, Strip(message, MessageTrim)))
  {
    var line := ChatText(platformId, qualifier, user, message);
    var g := Groups("", platformId, qualifier, user, message, "");
    ChatTextSpell(platformId, qualifier, user, message);
    assert Shape(line, g);
    ShapeMatches(line, g);
    SearchFirstStart(line, QualEnd(g));
  }

  /** A `)` that starts a closer inside a stretch of the line is a `)` of that stretch. */
  lemma ParenInside(line: string, stretch: string, x: nat, y: nat, p: nat)
    requires x <= p < y <= |line| && line[x..y] == stretch
    requires p + |Closer| <= |line| && line[p..p + |Closer|] == Closer
    ensures ')' in stretch
  {
    SliceAt(line, p, p + |Closer|, p);
    SliceAt(line, x, y, p);
  }

  /** The canonical chat line from a Steam player. */
  lemma ExampleSteamChat()
    ensures Parse("Chat (from 'Steam_123', Entity): 'Zed': hello world")
         == Some(ChatLine("Steam_123", "Zed", "hello world"))
  {
    SteamChatFields();
    SteamChatSpelled();
    ExampleMessagesStripped();
  }

  /** The line of `ExampleSteamChat` as `ChatText` spells it. */
  lemma SteamChatSpelled()
    ensures ChatText("Steam_123", " Entity", "Zed", "hello world")
         == "Chat (from 'Steam_123', Entity): 'Zed': hello world"
  {
  }

  /** `ExampleSteamChat` before the message is stripped. */
  lemma SteamChatFields()
    ensures Parse(ChatText("Steam_123", " Entity", "Zed", "hello world"))
         == Some(ChatLine("Steam_123", "Zed", Strip("hello world", MessageTrim)))
  {
    ParseChatText("Steam_123", " Entity", "Zed", "hello world");
  }

  /** The line a chat event would be logged as, with an empty qualifier. */
  function Reformat(c: ChatLine): string {
    ChatText(c.platformId, "", c.user, c.message)
  }

  /**
   * Re-deriving a line from parsed fields and parsing it again gives the same
   * fields, provided the stripped message is not empty.
   */
  lemma ReformatRoundTrip(line: string)
    requires Parse(line).Some? && Parse(line).value.message != []
    ensures Parse(Reformat(Parse(line).value)) == Parse(line)
  {
    ParseFields(line);
    var c := Parse(line).value;
    assert NoNewline(c.message) by {
      StripAbsent(Search(line).value.rest, MessageTrim, '\n');
    }
    ParseChatText(c.platformId, "", c.user, c.message);
  }

  /**
   * A chat line with an empty qualifier and an empty message never parses,
   * since `.+` needs a character after `': `, for platform ids and user names
   * without quotes.
   */
  lemma EmptyMessageNeverParses(platformId: string, user: string)
    requires NoQuote(platformId) && NoQuote(user)
    ensures Parse(ChatText(platformId, "", user, "")).None?
  {
    var line := ChatText(platformId, "", user, "");
    if FindMatch(line, 0).Some? {
      var (s, p) := FindMatch(line, 0).value;
      EmptyMessageNoMatch(platformId, user, s, p);
    }
  }

  /** The match-level form of `EmptyMessageNeverParses`. */
  lemma EmptyMessageNoMatch(platformId: string, user: string, s: nat, p: nat)
    requires NoQuote(platformId) && NoQuote(user)
    ensures !MatchesAt(ChatText(platformId, "", user, ""), s, p)
  {
    var line := ChatText(platformId, "", user, "");
    if MatchesAt(line, s, p) {
      var g := Groups("", platformId, "", user, "", "");
      ChatTextSpell(platformId, "", user, "");
      SpellPieces(g);
      assert false;
    }
  }

  /**
   * A message made only of quotes strips to nothing, and the line re-derived
   * from the fields then no longer parses.
   */
  lemma EmptyMessageDoesNotRoundTrip()
    ensures Parse("Chat (from 'Steam_1',): 'Zed': ''") == Some(ChatLine("Steam_1", "Zed", ""))
    ensures Parse(Reformat(ChatLine("Steam_1", "Zed", ""))).None?
  {
    QuotedMessageParses();
    EmptyMessageReformatted();
  }

  /** The line of `EmptyMessageDoesNotRoundTrip` parses to an empty message. */
  lemma QuotedMessageParses()
    ensures Parse("Chat (from 'Steam_1',): 'Zed': ''") == Some(ChatLine("Steam_1", "Zed", ""))
  {
    QuotedMessageFields();
    QuotedMessageSpelled();
    ExampleMessagesStripped();
  }

  /** The line re-derived from an empty message does not parse. */
  lemma EmptyMessageReformatted()
    ensures Parse(Reformat(ChatLine("Steam_1", "Zed", ""))).None?
  {
    EmptyMessageNeverParses("Steam_1", "Zed");
  }


  /** The line of `EmptyMessageDoesNotRoundTrip` as `ChatText` spells it. */
  lemma QuotedMessageSpelled()
    ensures ChatText("Steam_1", "", "Zed", "''") == "Chat (from 'Steam_1',): 'Zed': ''"
  {
  }

  /** The messages of the two examples, stripped of spaces and quotes. */
  lemma ExampleMessagesStripped()
    ensures Strip("hello world", MessageTrim) == "hello world"
    ensures Strip("''", MessageTrim) == ""
  {
    StripKeepsStripped("hello world", MessageTrim);
    assert TrimStart("''", MessageTrim) == "";
  }

  /** `EmptyMessageDoesNotRoundTrip`'s line before the message is stripped. */
  lemma QuotedMessageFields()
    ensures Parse(ChatText("Steam_1", "", "Zed", "''")) == Some(ChatLine("Steam_1", "Zed", Strip("''", MessageTrim)))
  {
    ParseChatText("Steam_1", "", "Zed", "''");
  }
}
