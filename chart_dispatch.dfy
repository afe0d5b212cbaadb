/**
 * Chart dispatch (`createChartComponent` in DynamicChartRenderer.jsx).
 *
 * The backend's chart code is matched against
 *     /import.*Responsive(\w+).*from '@nivo\/(\w+)'/
 * and the first group is looked up, case-sensitively, among Line, Bar and Pie.
 *
 * The regular expression is stated declaratively (`Candidate`: the ways it can
 * match, `Preferred`: the one JavaScript's backtracking engine reports) and is
 * computed by a scanner that works one line at a time (`MatchFrom`), proved to
 * find exactly the preferred match.
 */
module ChartDispatch {
  import opened Wrappers

  /** The chart families the renderer has a component for. */
  datatype Family = Line | Bar | Pie

  /** The family's key in `chartComponents`: a word, so `(\w+)` can capture it. */
  function FamilyName(f: Family): (name: string)
    ensures name != [] && forall k :: 0 <= k < |name| ==> IsWordChar(name[k])
  {
    match f
    case Line => "Line"
    case Bar => "Bar"
    case Pie => "Pie"
  }

  /** The two errors `createChartComponent` throws. */
  datatype ChartError = NoChartType | Unsupported(token: string)

  const UnsupportedPrefix := "Unsupported chart type: "

  /** The error's message: the unsupported one starts with a fixed prefix and reads back as the token. */
  function Message(e: ChartError): (msg: string)
    ensures msg != ""
    ensures e.Unsupported? <==> |msg| >= |UnsupportedPrefix| && msg[..|UnsupportedPrefix|] == UnsupportedPrefix
    ensures e.Unsupported? ==> msg[|UnsupportedPrefix|..] == e.token
  {
    match e
    case NoChartType =>
      var m := "Could not determine chart type from code";
      assert m[0] != UnsupportedPrefix[0];
      m
    case Unsupported(token) => UnsupportedPrefix + token
  }

  const ImportWord := "import"
  const ResponsiveWord := "Responsive"
  const FromNivo := "from '@nivo/"

  /** The characters `.` does not match. */
  predicate IsLineBreak(c: char) {
    c == '\n' || c == '\r' || c == '\U{2028}' || c == '\U{2029}'
  }

  /** The characters `\w` matches. */
  predicate IsWordChar(c: char) {
    ('a' <= c <= 'z') || ('A' <= c <= 'Z') || ('0' <= c <= '9') || c == '_'
  }

  predicate LiteralAt(s: string, k: nat, lit: string) {
    k + |lit| <= |s| && s[k..k + |lit|] == lit
  }

  /** `.*` can consume s[a..b]. */
  predicate NoBreak(s: string, a: nat, b: nat)
    requires a <= b <= |s|
  {
    forall k :: a <= k < b ==> !IsLineBreak(s[k])
  }

  /** `\w+` (or `\w*`) can consume s[a..b]. */
  predicate AllWord(s: string, a: nat, b: nat)
    requires a <= b <= |s|
  {
    forall k :: a <= k < b ==> IsWordChar(s[k])
  }

  /** `from '@nivo\/(\w+)'` matches starting at q. */
  predicate TailAt(s: string, q: nat) {
    && LiteralAt(s, q, FromNivo)
    && exists k: nat :: q + |FromNivo| < k < |s| && AllWord(s, q + |FromNivo|, k) && s[k] == '\''
  }

  /**
   * The expression can match with `import` at i, `Responsive` at r and the
   * first group being s[r + 10..e].
   */
  ghost predicate Candidate(s: string, i: nat, r: nat, e: nat)
    ensures Candidate(s, i, r, e) ==> i + |ImportWord| + |ResponsiveWord| < e && e + |FromNivo| + 2 <= |s|
  {
    && LiteralAt(s, i, ImportWord)
    && i + |ImportWord| <= r
    && LiteralAt(s, r, ResponsiveWord)
    && NoBreak(s, i + |ImportWord|, r)
    && r + |ResponsiveWord| < e <= |s|
    && AllWord(s, r + |ResponsiveWord|, e)
    && exists q: nat :: e <= q <= |s| && NoBreak(s, e, q) && TailAt(s, q)
  }

  /**
   * Among the matches at i, the one backtracking tries first: greedy `.*` then
   * greedy `\w+`. Its first group is a whole word run unless the package
   * clause starts right where the group ends.
   */
  ghost predicate BestAt(s: string, i: nat, r: nat, e: nat)
    ensures BestAt(s, i, r, e) && e < |s| ==> !IsWordChar(s[e]) || TailAt(s, e)
  {
    GrowWithinLine(s, i, r, e);
    && Candidate(s, i, r, e)
    && (forall r': nat, e': nat :: Candidate(s, i, r', e') ==> r' <= r)
    && (forall e': nat :: Candidate(s, i, r, e') ==> e' <= e)
  }

  /** No match starts at or after lo and before i. */
  ghost predicate LeftmostFrom(s: string, lo: nat, i: nat) {
    forall i': nat, r': nat, e': nat :: lo <= i' && Candidate(s, i', r', e') ==> i <= i'
  }

  /**
   * The match `String.prototype.match` reports: leftmost, then as the engine
   * prefers. It is the one the scanner finds from the start of the code.
   */
  ghost predicate Preferred(s: string, i: nat, r: nat, e: nat)
    ensures Preferred(s, i, r, e) ==> MatchFrom(s, 0) == Some(Hit(i, r, e))
  {
    LeftmostIsFound(s, i, r, e);
    BestAt(s, i, r, e) && LeftmostFrom(s, 0, i)
  }

  /** The leftmost, backtracking-preferred match is the scanner's. */
  lemma LeftmostIsFound(s: string, i: nat, r: nat, e: nat)
    ensures BestAt(s, i, r, e) && LeftmostFrom(s, 0, i) ==> MatchFrom(s, 0) == Some(Hit(i, r, e))
  {
    MatchFromSpec(s, 0);
    if BestAt(s, i, r, e) && LeftmostFrom(s, 0, i) {
      assert MatchFrom(s, 0).Some?;
      var h := MatchFrom(s, 0).value;
      assert h.importAt == i;
      assert h.responsiveAt == r;
      assert h.tokenEnd == e;
    }
  }

  // ---------------------------------------------------------------------
  // The scanner
  // ---------------------------------------------------------------------

  /** The end of the line holding position i: the first line break at or after i, or |s|. */
  function LineEnd(s: string, i: nat): (k: nat)
    requires i <= |s|
    ensures i <= k <= |s| && NoBreak(s, i, k)
    ensures k < |s| ==> IsLineBreak(s[k])
    decreases |s| - i
  {
    if i == |s| || IsLineBreak(s[i]) then i else LineEnd(s, i + 1)
  }

  /** The end of the run of word characters that starts at k. */
  function WordEnd(s: string, k: nat): (m: nat)
    requires k <= |s|
    ensures k <= m <= |s| && AllWord(s, k, m)
    ensures m < |s| ==> !IsWordChar(s[m])
    decreases |s| - k
  {
    if k == |s| || !IsWordChar(s[k]) then k else WordEnd(s, k + 1)
  }

  /** The last position in [lo, hi) where the `from '@nivo/...'` clause starts. */
  function LastTail(s: string, lo: nat, hi: nat): (q: Option<nat>)
    ensures q.Some? ==> lo <= q.value < hi && TailAt(s, q.value)
    ensures q.Some? ==> forall k :: q.value < k < hi ==> !TailAt(s, k)
    ensures q.None? ==> forall k :: lo <= k < hi ==> !TailAt(s, k)
    decreases hi
  {
    if hi <= lo then None
    else if TailAt(s, hi - 1) then Some(hi - 1)
    else LastTail(s, lo, hi - 1)
  }

  /** `Responsive` followed by at least one word character starts at r. */
  predicate ResponsiveAt(s: string, r: nat) {
    LiteralAt(s, r, ResponsiveWord) && r + |ResponsiveWord| < |s| && IsWordChar(s[r + |ResponsiveWord|])
  }

  /** The last position in [lo, hi) where `ResponsiveAt` holds. */
  function LastResponsive(s: string, lo: nat, hi: nat): (r: Option<nat>)
    ensures r.Some? ==> lo <= r.value < hi && ResponsiveAt(s, r.value)
    ensures r.Some? ==> forall k :: r.value < k < hi ==> !ResponsiveAt(s, k)
    ensures r.None? ==> forall k :: lo <= k < hi ==> !ResponsiveAt(s, k)
    decreases hi
  {
    if hi <= lo then None
    else if ResponsiveAt(s, hi - 1) then Some(hi - 1)
    else LastResponsive(s, lo, hi - 1)
  }

  /** Where a match was found: `import`, `Responsive`, and the end of the first group. */
  datatype Hit = Hit(importAt: nat, responsiveAt: nat, tokenEnd: nat)

  function Min(a: nat, b: nat): nat { if a <= b then a else b }

  /**
   * The match with `import` at i. Everything it can use lies on i's line;
   * the last package clause on that line bounds both the `Responsive` that
   * can be used and the end of the first group.
   */
  function MatchAt(s: string, i: nat): (h: Option<Hit>)
    requires LiteralAt(s, i, ImportWord)
    ensures h.Some? ==>
              && h.value.importAt == i && i + |ImportWord| <= h.value.responsiveAt
              && h.value.responsiveAt + |ResponsiveWord| < h.value.tokenEnd < LineEnd(s, i)
  {
    var lineEnd := LineEnd(s, i);
    match LastTail(s, i, lineEnd)
    case None => None
    case Some(q) =>
      if q < |ResponsiveWord| + 1 then None
      else
        match LastResponsive(s, i + |ImportWord|, q - |ResponsiveWord|)
        case None => None
        case Some(r) =>
          var m := WordEnd(s, r + |ResponsiveWord|);
          assert r + |ResponsiveWord| < m by {
            assert ResponsiveAt(s, r);
          }
          Some(Hit(i, r, Min(m, q)))
  }

  /** The leftmost match whose `import` is at or after i. */
  function MatchFrom(s: string, i: nat): (h: Option<Hit>)
    ensures h.Some? ==>
              && i <= h.value.importAt && LiteralAt(s, h.value.importAt, ImportWord)
              && MatchAt(s, h.value.importAt) == h
    decreases |s| - i
  {
    if |s| < i + |ImportWord| then None
    else if LiteralAt(s, i, ImportWord) && MatchAt(s, i).Some? then MatchAt(s, i)
    else MatchFrom(s, i + 1)
  }

  // ---------------------------------------------------------------------
  // The scanner finds the preferred match
  // ---------------------------------------------------------------------

  lemma NoBreakJoin(s: string, a: nat, b: nat, c: nat)
    requires a <= b <= c <= |s| && NoBreak(s, a, b) && NoBreak(s, b, c)
    ensures NoBreak(s, a, c)
  {
  }

  /** A literal without line breaks, or a run of word characters, is something `.*` could consume. */
  lemma LiteralNoBreak(s: string, k: nat, lit: string)
    requires LiteralAt(s, k, lit)
    requires forall j :: 0 <= j < |lit| ==> !IsLineBreak(lit[j])
    ensures NoBreak(s, k, k + |lit|)
  {
    forall j | k <= j < k + |lit| ensures !IsLineBreak(s[j]) {
      assert s[j] == s[k..k + |lit|][j - k];
    }
  }

  /** Every package clause a candidate at i can use lies on i's line. */
  lemma {:induction false} TailOnLine(s: string, i: nat, r: nat, e: nat, q: nat)
    requires Candidate(s, i, r, e)
    requires e <= q <= |s| && NoBreak(s, e, q) && TailAt(s, q)
    ensures q < LineEnd(s, i)
  {
    LiteralNoBreak(s, i, ImportWord);
    LiteralNoBreak(s, r, ResponsiveWord);
    assert NoBreak(s, r + |ResponsiveWord|, e);
    NoBreakJoin(s, i, i + |ImportWord|, r);
    NoBreakJoin(s, i, r, r + |ResponsiveWord|);
    NoBreakJoin(s, i, r + |ResponsiveWord|, e);
    NoBreakJoin(s, i, e, q);
    assert s[q] == FromNivo[0] by { assert s[q] == s[q..q + |FromNivo|][0]; }
  }

  /** The first group of a candidate never runs past the end of the word run. */
  lemma WordRunBound(s: string, k: nat, e: nat)
    requires k <= e <= |s| && AllWord(s, k, e)
    ensures e <= WordEnd(s, k)
  {
  }

  /** Any candidate at i is bounded by the last package clause on i's line. */
  lemma {:induction false} CandidateBounds(s: string, i: nat, r: nat, e: nat)
    requires Candidate(s, i, r, e)
    ensures var tail := LastTail(s, i, LineEnd(s, i));
            tail.Some? && r + |ResponsiveWord| + 1 <= tail.value && e <= tail.value
    ensures ResponsiveAt(s, r)
  {
    var q :| e <= q <= |s| && NoBreak(s, e, q) && TailAt(s, q);
    TailOnLine(s, i, r, e, q);
    assert IsWordChar(s[r + |ResponsiveWord|]);
  }

  /** When the scanner finds nothing at i, the expression cannot match there. */
  lemma {:induction false} MatchAtComplete(s: string, i: nat, r: nat, e: nat)
    requires LiteralAt(s, i, ImportWord) && Candidate(s, i, r, e)
    ensures MatchAt(s, i).Some? && r <= MatchAt(s, i).value.responsiveAt
  {
    CandidateBounds(s, i, r, e);
    var q := LastTail(s, i, LineEnd(s, i)).value;
    var resp := LastResponsive(s, i + |ImportWord|, q - |ResponsiveWord|);
    assert resp.Some? && r <= resp.value;
  }

  /**
   * The positions the scanner picks form a match: `import` at i, the last
   * `Responsive` before the clause at q, and the group cut at the end of
   * the word run m or at q.
   */
  lemma CandidateOfParts(s: string, i: nat, lineEnd: nat, q: nat, r: nat, m: nat)
    requires LiteralAt(s, i, ImportWord)
    requires i <= lineEnd <= |s| && NoBreak(s, i, lineEnd)
    requires q < lineEnd && TailAt(s, q)
    requires i + |ImportWord| <= r && r + |ResponsiveWord| < q && ResponsiveAt(s, r)
    requires r + |ResponsiveWord| < m <= |s| && AllWord(s, r + |ResponsiveWord|, m)
    ensures Candidate(s, i, r, Min(m, q))
  {
    assert NoBreak(s, Min(m, q), q);
  }

  /** What the scanner finds at i is a match. */
  lemma {:induction false} MatchAtSound(s: string, i: nat)
    requires LiteralAt(s, i, ImportWord) && MatchAt(s, i).Some?
    ensures var h := MatchAt(s, i).value;
            h.importAt == i && Candidate(s, i, h.responsiveAt, h.tokenEnd)
  {
    var lineEnd := LineEnd(s, i);
    assert LastTail(s, i, lineEnd).Some?;
    var q := LastTail(s, i, lineEnd).value;
    assert q >= |ResponsiveWord| + 1 && LastResponsive(s, i + |ImportWord|, q - |ResponsiveWord|).Some?;
    var r := LastResponsive(s, i + |ImportWord|, q - |ResponsiveWord|).value;
    var m := WordEnd(s, r + |ResponsiveWord|);
    assert MatchAt(s, i) == Some(Hit(i, r, Min(m, q)));
    CandidateOfParts(s, i, lineEnd, q, r, m);
  }

  /** What the scanner finds at i is the match backtracking prefers there. */
  lemma {:induction false} MatchAtBest(s: string, i: nat)
    requires LiteralAt(s, i, ImportWord) && MatchAt(s, i).Some?
    ensures var h := MatchAt(s, i).value;
            h.importAt == i && BestAt(s, i, h.responsiveAt, h.tokenEnd)
  {
    MatchAtSound(s, i);
    var h := MatchAt(s, i).value;
    forall r': nat, e': nat | Candidate(s, i, r', e') ensures r' <= h.responsiveAt {
      MatchAtComplete(s, i, r', e');
    }
    forall e': nat | Candidate(s, i, h.responsiveAt, e') ensures e' <= h.tokenEnd {
      CandidateBounds(s, i, h.responsiveAt, e');
      WordRunBound(s, h.responsiveAt + |ResponsiveWord|, e');
    }
  }

  lemma {:induction false} MatchAtSpec(s: string, i: nat)
    requires LiteralAt(s, i, ImportWord)
    ensures MatchAt(s, i).None? ==> forall r: nat, e: nat :: !Candidate(s, i, r, e)
    ensures MatchAt(s, i).Some? ==>
              var h := MatchAt(s, i).value;
              h.importAt == i && BestAt(s, i, h.responsiveAt, h.tokenEnd)
  {
    if MatchAt(s, i).Some? {
      MatchAtBest(s, i);
    } else {
      forall r: nat, e: nat | Candidate(s, i, r, e) ensures false {
        MatchAtComplete(s, i, r, e);
      }
    }
  }

  /** No match has its `import` at i. */
  ghost predicate NoneAt(s: string, i: nat) {
    forall r: nat, e: nat :: !Candidate(s, i, r, e)
  }

  /** No match has its `import` at or after i. */
  ghost predicate NoneFrom(s: string, i: nat) {
    forall i': nat, r: nat, e: nat :: i <= i' ==> !Candidate(s, i', r, e)
  }

  /** Past the last place `import` fits there is nothing to match. */
  lemma NoneNearEnd(s: string, i: nat)
    requires |s| < i + |ImportWord|
    ensures NoneFrom(s, i)
  {
  }

  /** Skipping a position where nothing matches keeps "none from" and "leftmost from" facts. */
  lemma SkipPosition(s: string, i: nat)
    requires NoneAt(s, i)
    ensures NoneFrom(s, i + 1) ==> NoneFrom(s, i)
    ensures forall j: nat :: LeftmostFrom(s, i + 1, j) ==> LeftmostFrom(s, i, j)
  {
  }

  lemma {:induction false} MatchFromSpec(s: string, i: nat)
    ensures MatchFrom(s, i).None? ==> NoneFrom(s, i)
    ensures MatchFrom(s, i).Some? ==>
              var h := MatchFrom(s, i).value;
              i <= h.importAt && BestAt(s, h.importAt, h.responsiveAt, h.tokenEnd)
              && LeftmostFrom(s, i, h.importAt)
    decreases |s| - i
  {
    if |s| < i + |ImportWord| {
      NoneNearEnd(s, i);
    } else if LiteralAt(s, i, ImportWord) && MatchAt(s, i).Some? {
      MatchAtSpec(s, i);
    } else {
      assert NoneAt(s, i) by {
        if LiteralAt(s, i, ImportWord) {
          MatchAtSpec(s, i);
        }
      }
      assert MatchFrom(s, i) == MatchFrom(s, i + 1);
      MatchFromSpec(s, i + 1);
      SkipPosition(s, i);
    }
  }

  /** `token` is the first group of the match `String.prototype.match` reports. */
  ghost predicate IsGroup(code: string, token: string) {
    exists i: nat, r: nat, e: nat :: Preferred(code, i, r, e) && token == code[r + |ResponsiveWord|..e]
  }

  /** The first group of the preferred match, if the expression matches at all. */
  function Extract(code: string): (token: Option<string>)
    ensures token.None? <==> forall i: nat, r: nat, e: nat :: !Candidate(code, i, r, e)
    ensures token.Some? ==> IsGroup(code, token.value)
  {
    MatchFromSpec(code, 0);
    match MatchFrom(code, 0)
    case None => None
    case Some(h) =>
      assert Preferred(code, h.importAt, h.responsiveAt, h.tokenEnd);
      Some(code[h.responsiveAt + |ResponsiveWord|..h.tokenEnd])
  }

  /** `chartComponents[chartType]` restricted to the object's own three keys. */
  function Lookup(token: string): (f: Option<Family>)
    ensures f.Some? ==> FamilyName(f.value) == token
    ensures f.None? ==> forall g :: FamilyName(g) != token
  {
    if token == "Line" then Some(Line)
    else if token == "Bar" then Some(Bar)
    else if token == "Pie" then Some(Pie)
    else None
  }

  /** `createChartComponent`: a family, or one of the two errors. */
  function Resolve(code: string): (res: Result<Family, ChartError>)
    ensures res == Failure(NoChartType) <==> forall i: nat, r: nat, e: nat :: !Candidate(code, i, r, e)
    ensures res.Success? ==> IsGroup(code, FamilyName(res.value))
    ensures res.Failure? && res.error.Unsupported? ==>
              IsGroup(code, res.error.token) && forall g :: FamilyName(g) != res.error.token
  {
    match Extract(code)
    case None => Failure(NoChartType)
    case Some(token) =>
      match Lookup(token)
      case Some(f) =>
        assert FamilyName(f) == token;
        Success(f)
      case None => Failure(Unsupported(token))
  }

  // ---------------------------------------------------------------------
  // Properties
  // ---------------------------------------------------------------------

  /** The two failures show different messages, and an unsupported message names its token. */
  lemma MessagesDistinguishErrors(a: ChartError, b: ChartError)
    ensures Message(a) == Message(b) <==> a == b
  {
    var prefix := "Unsupported chart type: ";
    if a.Unsupported? && b.Unsupported? && Message(a) == Message(b) {
      assert a.token == Message(a)[|prefix|..];
    }
    if a.NoChartType? && b.Unsupported? {
      assert Message(a)[0] != Message(b)[0];
    }
    if a.Unsupported? && b.NoChartType? {
      assert Message(a)[0] != Message(b)[0];
    }
  }

  /**
   * The first group is the whole word run after `Responsive`, unless the
   * package clause starts right where the group ends (as in
   * `ResponsiveLinefrom '@nivo/line'`, where backtracking hands `from` back).
   */
  lemma TokenIsWholeWordRun(s: string, i: nat, r: nat, e: nat)
    requires Preferred(s, i, r, e)
    requires e < |s| && IsWordChar(s[e])
    ensures TailAt(s, e)
  {
    var q :| e <= q <= |s| && NoBreak(s, e, q) && TailAt(s, q);
    if q != e {
      GrowToken(s, i, r, e, q);
    }
  }

  /** A match whose group stops before a word character that is not the package clause can grow. */
  lemma GrowWithinLine(s: string, i: nat, r: nat, e: nat)
    ensures Candidate(s, i, r, e) && e < |s| && IsWordChar(s[e]) && !TailAt(s, e) ==> Candidate(s, i, r, e + 1)
  {
    if Candidate(s, i, r, e) && e < |s| && IsWordChar(s[e]) && !TailAt(s, e) {
      var q :| e <= q <= |s| && NoBreak(s, e, q) && TailAt(s, q);
      GrowToken(s, i, r, e, q);
    }
  }

  /** A word character before the package clause could join the first group. */
  lemma GrowToken(s: string, i: nat, r: nat, e: nat, q: nat)
    requires Candidate(s, i, r, e)
    requires e < q <= |s| && NoBreak(s, e, q) && TailAt(s, q) && IsWordChar(s[e])
    ensures Candidate(s, i, r, e + 1)
  {
  }

  /** The same code cannot have two preferred matches. */
  lemma PreferredUnique(s: string, i: nat, r: nat, e: nat, i': nat, r': nat, e': nat)
    requires Preferred(s, i, r, e) && Preferred(s, i', r', e')
    ensures i == i' && r == r' && e == e'
  {
  }

  /** The import line the backend is expected to emit: `import { Responsive<name> } from '@nivo/<pkg>'`. */
  function ImportLine(name: string, pkg: string): string {
    "import { " + ResponsiveWord + name + " } from '@nivo/" + pkg + "'"
  }

  /** A name made of word characters other than `R` (so that it cannot hide another `Responsive`). */
  predicate PlainWord(w: string) {
    w != [] && forall k :: 0 <= k < |w| ==> IsWordChar(w[k]) && w[k] != 'R'
  }

  /** Where each character of an import line comes from. */
  lemma ImportLineLayout(name: string, pkg: string)
    ensures var s := ImportLine(name, pkg); var n, p := |name|, |pkg|;
            && |s| == 35 + n + p
            && (forall k :: 0 <= k < 19 ==> s[k] == ("import { " + ResponsiveWord)[k])
            && (forall k :: 19 <= k < 19 + n ==> s[k] == name[k - 19])
            && (forall k :: 19 + n <= k < 34 + n ==> s[k] == " } from '@nivo/"[k - 19 - n])
            && (forall k :: 34 + n <= k < 34 + n + p ==> s[k] == pkg[k - 34 - n])
            && s[34 + n + p] == '\''
  {
  }

  lemma {:induction false} ImportLineCandidate(name: string, pkg: string)
    requires PlainWord(name) && PlainWord(pkg)
    ensures Candidate(ImportLine(name, pkg), 0, 9, 19 + |name|)
  {
    var s := ImportLine(name, pkg);
    var n, p := |name|, |pkg|;
    ImportLineLayout(name, pkg);
    assert LiteralAt(s, 0, ImportWord) by { assert s[0..6] == ImportWord; }
    assert LiteralAt(s, 9, ResponsiveWord) by { assert s[9..19] == ResponsiveWord; }
    assert LiteralAt(s, 22 + n, FromNivo) by { assert s[22 + n..34 + n] == FromNivo; }
    assert AllWord(s, 34 + n, 34 + n + p);
    assert TailAt(s, 22 + n);
    assert NoBreak(s, 19 + n, 22 + n);
  }

  /** The only `R` on an import line is the one that starts `Responsive`. */
  lemma ImportLineSingleR(name: string, pkg: string)
    requires PlainWord(name) && PlainWord(pkg)
    ensures var s := ImportLine(name, pkg);
            forall k :: 0 <= k < |s| && s[k] == 'R' ==> k == 9
  {
    ImportLineLayout(name, pkg);
  }

  /** The name is followed by a space, which ends the run of word characters. */
  lemma ImportLineNameEnds(name: string, pkg: string)
    ensures var s := ImportLine(name, pkg);
            19 + |name| < |s| && !IsWordChar(s[19 + |name|])
  {
    ImportLineLayout(name, pkg);
  }

  lemma {:induction false} ImportLinePreferred(name: string, pkg: string)
    requires PlainWord(name) && PlainWord(pkg)
    ensures Preferred(ImportLine(name, pkg), 0, 9, 19 + |name|)
  {
    var s := ImportLine(name, pkg);
    var n := |name|;
    ImportLineCandidate(name, pkg);
    ImportLineSingleR(name, pkg);
    ImportLineNameEnds(name, pkg);
    forall r': nat, e': nat | Candidate(s, 0, r', e') ensures r' <= 9 {
      assert s[r'] == 'R' by { assert s[r'] == s[r'..r' + 10][0]; }
    }
    forall e': nat | Candidate(s, 0, 9, e') ensures e' <= 19 + n {
      assert AllWord(s, 19, e');
    }
  }

  /**
   * On the expected import line the first group is exactly the component
   * name after `Responsive`, whatever the package.
   */
  lemma {:induction false} ImportLineToken(name: string, pkg: string)
    requires PlainWord(name) && PlainWord(pkg)
    ensures Extract(ImportLine(name, pkg)) == Some(name)
  {
    ImportLinePreferred(name, pkg);
    ImportLineName(name, pkg);
    ExtractNamed(ImportLine(name, pkg), 9, 19 + |name|, name);
  }

  lemma ExtractNamed(s: string, r: nat, e: nat, name: string)
    requires Preferred(s, 0, r, e) && r + |ResponsiveWord| <= e <= |s| && s[r + |ResponsiveWord|..e] == name
    ensures Extract(s) == Some(name)
  {
    ExtractPreferred(s, 0, r, e);
  }

  lemma ImportLineName(name: string, pkg: string)
    ensures |ImportLine(name, pkg)| >= 19 + |name|
    ensures ImportLine(name, pkg)[19..19 + |name|] == name
  {
  }

  /** Whenever a preferred match exists, `Extract` returns its first group. */
  lemma ExtractPreferred(s: string, i: nat, r: nat, e: nat)
    requires Preferred(s, i, r, e)
    ensures Extract(s) == Some(s[r + |ResponsiveWord|..e])
  {
    ExtractSome(s, i, r, e);
    PreferredGroup(s, i, r, e, Extract(s));
  }

  lemma ExtractSome(s: string, i: nat, r: nat, e: nat)
    requires Preferred(s, i, r, e)
    ensures Extract(s).Some?
  {
    assert Candidate(s, i, r, e);
  }

  /** A token witnessed by some preferred match is the group of any preferred match. */
  lemma PreferredGroup(s: string, i: nat, r: nat, e: nat, t: Option<string>)
    requires Preferred(s, i, r, e) && t.Some?
    requires IsGroup(s, t.value)
    ensures t == Some(s[r + |ResponsiveWord|..e])
  {
    var i0: nat, r0: nat, e0: nat :| Preferred(s, i0, r0, e0) && t.value == s[r0 + |ResponsiveWord|..e0];
    PreferredUnique(s, i, r, e, i0, r0, e0);
  }

  /**
   * On the expected import line the outcome depends on the component name
   * alone: a family when the name is one of the three keys, otherwise the
   * unsupported-type error carrying that name. The package is never looked at.
   */
  lemma {:induction false} ResolveImportLine(name: string, pkg: string)
    requires PlainWord(name) && PlainWord(pkg)
    ensures Lookup(name).Some? ==> Resolve(ImportLine(name, pkg)) == Success(Lookup(name).value)
    ensures Lookup(name).None? ==> Resolve(ImportLine(name, pkg)) == Failure(Unsupported(name))
  {
    ImportLineToken(name, pkg);
  }

  /** `ResponsiveLineCanvas` yields the token `LineCanvas`, which is not supported. */
  lemma LineCanvasIsUnsupported()
    ensures Resolve(ImportLine("LineCanvas", "line")) == Failure(Unsupported("LineCanvas"))
  {
    ResolveImportLine("LineCanvas", "line");
  }

  /** `ResponsiveLine` from `@nivo/bar` still resolves to Line. */
  lemma PackageIsIgnored()
    ensures Resolve(ImportLine("Line", "bar")) == Success(Line)
  {
    ResolveImportLine("Line", "bar");
  }

  /** The lookup is case-sensitive: `Responsiveline` is not supported. */
  lemma LookupIsCaseSensitive()
    ensures Resolve(ImportLine("line", "line")) == Failure(Unsupported("line"))
  {
    assert Lookup("line") == None;
    ResolveImportLine("line", "line");
  }
}
