// Removing comments and quoted literals from a statement, and finding table names
// in what is left.
module Scrub {
  import opened Text
  import opened FirstSeen

  datatype Found = NoMatch | Match(end: nat)

  // ---------------------------------------------------------------------
  // The four alternatives of the pattern, as the matcher tries them
  // ---------------------------------------------------------------------

  // -- up to the end of the line
  function LineEnd(s: string, i: nat): (end: nat)
    requires i <= |s|
    ensures i <= end <= |s|
    ensures end < |s| ==> s[end] == '\n'
    ensures forall k :: i <= k < end ==> s[k] != '\n'
    decreases |s| - i
  {
    if i == |s| || s[i] == '\n' then i else LineEnd(s, i + 1)
  }

  predicate StarSlash(s: string, i: nat) {
    i + 1 < |s| && s[i] == '*' && s[i + 1] == '/'
  }

  // up to the first star and slash
  function BlockEnd(s: string, i: nat): (r: Found)
    requires i <= |s|
    ensures r.Match? ==> i + 2 <= r.end <= |s| && StarSlash(s, r.end - 2)
    ensures r.Match? ==> forall k :: i <= k < r.end - 2 ==> !StarSlash(s, k)
    ensures r.NoMatch? ==> forall k :: i <= k < |s| ==> !StarSlash(s, k)
    decreases |s| - i
  {
    if i == |s| then NoMatch else if StarSlash(s, i) then Match(i + 2) else BlockEnd(s, i + 1)
  }

  // as many plain characters and doubled quotes as leave room for a closing quote
  function Closing(s: string, i: nat, quote: char): (r: Found)
    requires i <= |s|
    ensures r.Match? ==> i < r.end <= |s| && s[r.end - 1] == quote
    ensures r.NoMatch? <==> forall k :: i <= k < |s| ==> s[k] != quote
    decreases |s| - i
  {
    if i == |s| then NoMatch
    else if s[i] != quote then Closing(s, i + 1, quote)
    else if i + 1 < |s| && s[i + 1] == quote && Closing(s, i + 2, quote).Match? then Closing(s, i + 2, quote)
    else Match(i + 1)
  }

  function MatchAt(s: string, i: nat): (r: Found)
    requires i <= |s|
    ensures r.Match? ==> i + 2 <= r.end <= |s|
  {
    if i + 1 < |s| && s[i] == '-' && s[i + 1] == '-' then Match(LineEnd(s, i + 2))
    else if i + 1 < |s| && s[i] == '/' && s[i + 1] == '*' then BlockEnd(s, i + 2)
    else if i < |s| && (s[i] == '\'' || s[i] == '"') then Closing(s, i + 1, s[i])
    else NoMatch
  }

  // re.sub(" ", ...)
  function StripFrom(s: string, i: nat): string
    requires i <= |s|
    decreases |s| - i
  {
    if i == |s| then ""
    else
      match MatchAt(s, i)
      case Match(end) => " " + StripFrom(s, end)
      case NoMatch => [s[i]] + StripFrom(s, i + 1)
  }

  function StripCommentsAndLiterals(s: string): string {
    StripFrom(s, 0)
  }

  // ---------------------------------------------------------------------
  // Where the characters come from
  // ---------------------------------------------------------------------

  const REMOVED := -1

  // For each character of the result its position in the input, or REMOVED for the
  // blank left in place of a region.
  function Origins(s: string, i: nat): (os: seq<int>)
    requires i <= |s|
    ensures |os| == |StripFrom(s, i)|
    decreases |s| - i
  {
    if i == |s| then []
    else
      match MatchAt(s, i)
      case Match(end) => [REMOVED] + Origins(s, end)
      case NoMatch => [i] + Origins(s, i + 1)
  }

  // Position p lies in a region that is removed.
  predicate Removed(s: string, i: nat, p: int)
    requires i <= |s|
    decreases |s| - i
  {
    i < |s| &&
    match MatchAt(s, i)
    case Match(end) => i <= p < end || Removed(s, end, p)
    case NoMatch => Removed(s, i + 1, p)
  }

  // One character of the result and its origin.
  ghost predicate Traced(s: string, c: char, o: int) {
    if o == REMOVED then c == ' ' else 0 <= o < |s| && c == s[o] && MatchAt(s, o).NoMatch?
  }

  lemma {:induction false} OriginsTraced(s: string, i: nat)
    requires i <= |s|
    ensures forall k :: 0 <= k < |Origins(s, i)| ==>
      Traced(s, StripFrom(s, i)[k], Origins(s, i)[k]) && (Origins(s, i)[k] == REMOVED || Origins(s, i)[k] >= i)
    decreases |s| - i
  {
    hide MatchAt;
    if i < |s| {
      var next := if MatchAt(s, i).Match? then MatchAt(s, i).end else i + 1;
      OriginsTraced(s, next);
      var os, rest := Origins(s, i), Origins(s, next);
      forall k | 0 <= k < |os|
        ensures Traced(s, StripFrom(s, i)[k], os[k]) && (os[k] == REMOVED || os[k] >= i)
      {
        if k > 0 {
          assert os[k] == rest[k - 1] && StripFrom(s, i)[k] == StripFrom(s, next)[k - 1];
        }
      }
    }
  }

  // Origins grow, and neighbours in the result were neighbours in the input.
  lemma {:induction false} OriginsGrow(s: string, i: nat)
    requires i <= |s|
    ensures forall k, m ::
      0 <= k < m < |Origins(s, i)| && Origins(s, i)[k] != REMOVED && Origins(s, i)[m] != REMOVED ==>
        Origins(s, i)[m] - Origins(s, i)[k] >= m - k
    ensures forall k ::
      0 <= k && k + 1 < |Origins(s, i)| && Origins(s, i)[k] != REMOVED && Origins(s, i)[k + 1] != REMOVED ==>
        Origins(s, i)[k + 1] == Origins(s, i)[k] + 1
    ensures forall k :: 0 <= k < |Origins(s, i)| && Origins(s, i)[k] != REMOVED ==> Origins(s, i)[k] - i >= k
    ensures Origins(s, i) != [] && Origins(s, i)[0] != REMOVED ==> Origins(s, i)[0] == i
    decreases |s| - i
  {
    hide MatchAt;
    if i < |s| {
      var next := if MatchAt(s, i).Match? then MatchAt(s, i).end else i + 1;
      OriginsGrow(s, next);
      var os, rest := Origins(s, i), Origins(s, next);
      assert forall k :: 0 < k < |os| ==> os[k] == rest[k - 1];
    }
  }

  // ---------------------------------------------------------------------
  // The fixed point
  // ---------------------------------------------------------------------

  // Nothing in the text reads as a comment or a quoted literal.
  ghost predicate Clean(t: string) {
    && (forall k :: 0 <= k && k + 1 < |t| ==> !(t[k] == '-' && t[k + 1] == '-'))
    && (forall k, m :: 0 <= k && k + 2 <= m < |t| && t[k] == '/' && t[k + 1] == '*' ==> !StarSlash(t, m))
    && (forall k, m :: 0 <= k < m < |t| && t[k] == t[m] ==> t[k] != '\'' && t[k] != '"')
  }

  lemma BlockOpen(t: string, i: nat)
    requires i <= |t| && forall m :: i <= m < |t| ==> !StarSlash(t, m)
    ensures BlockEnd(t, i).NoMatch?
  {
    var r := BlockEnd(t, i);
    assert forall m :: i <= m < |t| && StarSlash(t, m) ==> false;
  }

  // Clean texts are those the pattern matches nowhere.
  lemma CleanMatchesNothing(t: string)
    ensures Clean(t) <==> forall k :: 0 <= k <= |t| ==> MatchAt(t, k).NoMatch?
  {
    if Clean(t) {
      forall k | 0 <= k <= |t| ensures MatchAt(t, k).NoMatch? {
        if k + 1 < |t| && t[k] == '/' && t[k + 1] == '*' {
          BlockOpen(t, k + 2);
        }
      }
    }
    if forall k :: 0 <= k <= |t| ==> MatchAt(t, k).NoMatch? {
      forall k | 0 <= k && k + 1 < |t| ensures !(t[k] == '-' && t[k + 1] == '-') {
        assert MatchAt(t, k).NoMatch?;
      }
      forall k, m | 0 <= k && k + 2 <= m < |t| && t[k] == '/' && t[k + 1] == '*' ensures !StarSlash(t, m) {
        assert MatchAt(t, k).NoMatch?;
      }
      forall k, m | 0 <= k < m < |t| && t[k] == t[m] ensures t[k] != '\'' && t[k] != '"' {
        assert MatchAt(t, k).NoMatch?;
      }
    }
  }

  // After one pass nothing matches any more, unterminated quotes and comments included.
  lemma StripCleans(s: string)
    ensures Clean(StripCommentsAndLiterals(s))
  {
    var t, os := StripFrom(s, 0), Origins(s, 0);
    OriginsTraced(s, 0);
    OriginsGrow(s, 0);
    forall k | 0 <= k && k + 1 < |t| ensures !(t[k] == '-' && t[k + 1] == '-') {
      assert Traced(s, t[k], os[k]) && Traced(s, t[k + 1], os[k + 1]);
    }
    forall k, m | 0 <= k && k + 2 <= m < |t| && t[k] == '/' && t[k + 1] == '*' ensures !StarSlash(t, m) {
      assert Traced(s, t[k], os[k]) && Traced(s, t[k + 1], os[k + 1]) && Traced(s, t[m], os[m]);
      assert MatchAt(s, os[k]) == BlockEnd(s, os[k] + 2);
      if os[m] != REMOVED && m + 1 < |t| && os[m + 1] != REMOVED {
        assert Traced(s, t[m + 1], os[m + 1]);
        assert os[m + 1] == os[m] + 1 && os[m] >= os[k] + 2;
        assert !StarSlash(s, os[m]);
      }
    }
    forall k, m | 0 <= k < m < |t| && t[k] == t[m] ensures t[k] != '\'' && t[k] != '"' {
      assert Traced(s, t[k], os[k]) && Traced(s, t[m], os[m]);
    }
  }

  lemma {:induction false} CleanStays(t: string, i: nat)
    requires i <= |t| && forall k :: 0 <= k <= |t| ==> MatchAt(t, k).NoMatch?
    ensures StripFrom(t, i) == t[i..]
    decreases |t| - i
  {
    if i < |t| {
      CleanStays(t, i + 1);
      assert MatchAt(t, i).NoMatch?;
    }
  }

  // A text is its own scrubbed form exactly when nothing in it matches, and a second
  // pass changes nothing.
  lemma StripFixedPoint(s: string)
    ensures StripCommentsAndLiterals(StripCommentsAndLiterals(s)) == StripCommentsAndLiterals(s)
    ensures StripCommentsAndLiterals(s) == s <==> Clean(s)
  {
    StripCleans(s);
    var t := StripCommentsAndLiterals(s);
    CleanMatchesNothing(t);
    CleanStays(t, 0);
    if Clean(s) {
      CleanMatchesNothing(s);
      CleanStays(s, 0);
    }
  }

  // ---------------------------------------------------------------------
  // Table names
  // ---------------------------------------------------------------------

  predicate IsLetter(c: char) {
    'a' <= c <= 'z' || 'A' <= c <= 'Z'
  }

  predicate IsDigit(c: char) {
    '0' <= c <= '9'
  }

  // A character of a word; letters beyond ASCII count as such.
  predicate IsWord(c: char) {
    IsLetter(c) || IsDigit(c) || c == '_' || c >= '\U{80}'
  }

  const NAME_LENGTH := 14

  // TB_, three letters, an underscore and seven letters or digits, in either case.
  predicate IsTableName(n: string) {
    && |n| == NAME_LENGTH
    && Up(n[0]) == 'T' && Up(n[1]) == 'B' && n[2] == '_'
    && IsLetter(n[3]) && IsLetter(n[4]) && IsLetter(n[5]) && n[6] == '_'
    && forall k :: 7 <= k < NAME_LENGTH ==> IsLetter(n[k]) || IsDigit(n[k])
  }

  // A whole word of the text at position k is a table name.
  predicate TableAt(t: string, k: int) {
    && 0 <= k && k + NAME_LENGTH <= |t|
    && IsTableName(t[k..k + NAME_LENGTH])
    && (k > 0 ==> !IsWord(t[k - 1]))
    && (k + NAME_LENGTH < |t| ==> !IsWord(t[k + NAME_LENGTH]))
  }

  // findall
  function TableNames(t: string, k: nat): seq<string>
    requires k <= |t|
    decreases |t| - k
  {
    if k == |t| then []
    else if TableAt(t, k) then [t[k..k + NAME_LENGTH]] + TableNames(t, k + NAME_LENGTH)
    else TableNames(t, k + 1)
  }

  lemma WordsInName(n: string, i: nat)
    requires IsTableName(n) && i < NAME_LENGTH
    ensures IsWord(n[i])
  {
    assert Up(n[0]) == 'T' ==> IsLetter(n[0]);
    assert Up(n[1]) == 'B' ==> IsLetter(n[1]);
  }

  lemma NamesApart(t: string, k: nat, m: nat)
    requires TableAt(t, k) && k < m < k + NAME_LENGTH
    ensures !TableAt(t, m)
  {
    WordsInName(t[k..k + NAME_LENGTH], m - 1 - k);
    assert t[k..k + NAME_LENGTH][m - 1 - k] == t[m - 1];
  }

  lemma {:induction false} TableNamesComplete(t: string, k: nat, n: string)
    requires k <= |t|
    ensures n in TableNames(t, k) <==> exists m :: k <= m < |t| && TableAt(t, m) && t[m..m + NAME_LENGTH] == n
    decreases |t| - k
  {
    hide IsTableName, IsWord;
    if k < |t| {
      var next := if TableAt(t, k) then k + NAME_LENGTH else k + 1;
      TableNamesComplete(t, next, n);
      if TableAt(t, k) {
        forall m | k < m < next ensures !TableAt(t, m) {
          NamesApart(t, k, m);
        }
      }
      if n in TableNames(t, k) {
        if TableAt(t, k) && n == t[k..k + NAME_LENGTH] {
          assert TableAt(t, k) && t[k..k + NAME_LENGTH] == n;
        } else {
          assert n in TableNames(t, next);
        }
      }
    }
  }

  // The characters that survive are those outside the removed regions.
  lemma {:induction false} OriginsKept(s: string, i: nat, p: int)
    requires i <= |s|
    ensures i <= p < |s| && !Removed(s, i, p) <==> p != REMOVED && p in Origins(s, i)
    decreases |s| - i
  {
    hide MatchAt;
    if i < |s| {
      var next := if MatchAt(s, i).Match? then MatchAt(s, i).end else i + 1;
      OriginsKept(s, next, p);
      RemovedAhead(s, next, p);
    }
  }

  lemma {:induction false} RemovedAhead(s: string, i: nat, p: int)
    requires i <= |s|
    ensures Removed(s, i, p) ==> i <= p < |s|
    decreases |s| - i
  {
    hide MatchAt;
    if i < |s| {
      RemovedAhead(s, if MatchAt(s, i).Match? then MatchAt(s, i).end else i + 1, p);
    }
  }

  // What stands before and after a surviving character: its own neighbour, or a
  // blank in the result and no part of a word in the input.
  ghost predicate Neighbours(s: string, i: nat, k: nat)
    requires i <= |s| && k < |Origins(s, i)| && Origins(s, i)[k] != REMOVED && i <= Origins(s, i)[k] < |s|
  {
    var os, t := Origins(s, i), StripFrom(s, i);
    var p := os[k];
    && (k == 0 ==> p == i)
    && (k > 0 ==> if os[k - 1] == REMOVED then p > i && (IsWord(s[p]) ==> !IsWord(s[p - 1])) else os[k - 1] == p - 1)
    && (k + 1 == |os| ==> p + 1 == |s|)
    && (k + 1 < |os| ==> if os[k + 1] == REMOVED then p + 1 < |s| && !IsWord(s[p + 1]) else os[k + 1] == p + 1)
  }

  lemma {:induction false} OriginsNeighbours(s: string, i: nat, k: nat)
    requires i <= |s| && k < |Origins(s, i)| && Origins(s, i)[k] != REMOVED
    ensures i <= Origins(s, i)[k] < |s| && Neighbours(s, i, k)
    decreases |s| - i
  {
    hide MatchAt, IsWord;
    var next := if MatchAt(s, i).Match? then MatchAt(s, i).end else i + 1;
    var os, rest := Origins(s, i), Origins(s, next);
    OriginsGrow(s, next);
    if k == 0 {
      if next < |s| && MatchAt(s, next).Match? {
        RegionStarts(s, next);
      }
    } else {
      OriginsNeighbours(s, next, k - 1);
      assert os[k] == rest[k - 1] && (k > 1 ==> os[k - 1] == rest[k - 2]);
      if MatchAt(s, i).Match? {
        RegionEnds(s, i);
      }
    }
  }

  lemma RegionStarts(s: string, i: nat)
    requires i <= |s| && MatchAt(s, i).Match?
    ensures i < |s| && !IsWord(s[i])
  {
  }

  lemma RegionEnds(s: string, i: nat)
    requires i <= |s| && MatchAt(s, i).Match?
    ensures var end := MatchAt(s, i).end; end < |s| ==> !IsWord(s[end - 1]) || !IsWord(s[end])
  {
  }

  // A run of the result that starts at k and holds no removed blank is the run of the
  // input that starts at its origin.
  lemma {:induction false} RunCopied(s: string, k: nat, end: nat)
    requires k < end <= |Origins(s, 0)|
    requires forall x :: k <= x < end ==> Origins(s, 0)[x] != REMOVED
    ensures forall x :: k <= x < end ==> Origins(s, 0)[x] == Origins(s, 0)[k] + (x - k)
    decreases end
  {
    if k < end - 1 {
      RunCopied(s, k, end - 1);
      OriginsGrow(s, 0);
      var last := end - 2;
      assert Origins(s, 0)[last + 1] == Origins(s, 0)[last] + 1;
    }
  }

  // A run of the input none of which is removed stands in the result in one piece.
  lemma {:induction false} RunSurvives(s: string, k: nat, p: nat, end: nat)
    requires k < |Origins(s, 0)| && Origins(s, 0)[k] == p && p < end
    requires forall y :: p <= y < end ==> y in Origins(s, 0)
    ensures k + (end - p) <= |Origins(s, 0)|
    ensures forall x :: k <= x < k + (end - p) ==> Origins(s, 0)[x] == p + (x - k)
    decreases end
  {
    if p < end - 1 {
      RunSurvives(s, k, p, end - 1);
      OriginsGrow(s, 0);
      var os := Origins(s, 0);
      assert end - 1 in os;
      var m :| 0 <= m < |os| && os[m] == end - 1;
      var last := k + (end - 2 - p);
      assert os[last] == end - 2;
      assert m == last + 1;
    }
  }

  lemma TableSurvives(s: string, p: nat)
    requires TableAt(s, p) && forall x :: p <= x < p + NAME_LENGTH ==> !Removed(s, 0, x)
    ensures
      var t := StripCommentsAndLiterals(s);
      exists m :: 0 <= m < |t| && TableAt(t, m) && t[m..m + NAME_LENGTH] == s[p..p + NAME_LENGTH]
  {
    hide IsTableName, IsWord, MatchAt, StripFrom, Removed;
    var m := NameSurvives(s, p);
    EdgesSurvive(s, m, p);
    var t := StripCommentsAndLiterals(s);
    assert t == StripFrom(s, 0) && 0 <= m < |t| && TableAt(t, m);
  }

  // The characters of a name outside every region stay next to each other.
  lemma NameSurvives(s: string, p: nat) returns (m: nat)
    requires p + NAME_LENGTH <= |s| && forall x :: p <= x < p + NAME_LENGTH ==> !Removed(s, 0, x)
    ensures m + NAME_LENGTH <= |Origins(s, 0)| == |StripFrom(s, 0)|
    ensures Origins(s, 0)[m] == p && Origins(s, 0)[m + NAME_LENGTH - 1] == p + NAME_LENGTH - 1
    ensures StripFrom(s, 0)[m..m + NAME_LENGTH] == s[p..p + NAME_LENGTH]
  {
    hide MatchAt, StripFrom, Origins, Removed;
    var t, os := StripFrom(s, 0), Origins(s, 0);
    forall y | p <= y < p + NAME_LENGTH ensures y in os {
      OriginsKept(s, 0, y);
    }
    assert p in os;
    m :| 0 <= m < |os| && os[m] == p;
    RunSurvives(s, m, p, p + NAME_LENGTH);
    OriginsTraced(s, 0);
    forall x | m <= x < m + NAME_LENGTH ensures t[x] == s[p + (x - m)] {
      assert Traced(s, t[x], os[x]);
    }
    SliceCopied(s, p, t, m, NAME_LENGTH);
  }

  // What stands beside a name that survived is still no part of a word.
  lemma EdgesSurvive(s: string, m: nat, p: nat)
    requires p + NAME_LENGTH <= |s| && m + NAME_LENGTH <= |Origins(s, 0)| == |StripFrom(s, 0)|
    requires Origins(s, 0)[m] == p && Origins(s, 0)[m + NAME_LENGTH - 1] == p + NAME_LENGTH - 1
    requires p > 0 ==> !IsWord(s[p - 1])
    requires p + NAME_LENGTH < |s| ==> !IsWord(s[p + NAME_LENGTH])
    ensures m > 0 ==> !IsWord(StripFrom(s, 0)[m - 1])
    ensures m + NAME_LENGTH < |StripFrom(s, 0)| ==> !IsWord(StripFrom(s, 0)[m + NAME_LENGTH])
  {
    hide IsWord, MatchAt, StripFrom, Origins, Removed;
    var t, os := StripFrom(s, 0), Origins(s, 0);
    OriginsTraced(s, 0);
    OriginsNeighbours(s, 0, m);
    OriginsNeighbours(s, 0, m + NAME_LENGTH - 1);
    NoBlankWord();
    assert m > 0 ==> Traced(s, t[m - 1], os[m - 1]);
    assert m + NAME_LENGTH < |t| ==> Traced(s, t[m + NAME_LENGTH], os[m + NAME_LENGTH]);
  }

  lemma NoBlankWord()
    ensures !IsWord(' ')
  {
  }

  // A name occurs in the statement outside comments and literals.
  ghost predicate Mentioned(s: string, n: string) {
    exists p: nat :: TableAt(s, p) && s[p..p + NAME_LENGTH] == n && forall x :: p <= x < p + NAME_LENGTH ==>
      !Removed(s, 0, x)
  }

  lemma SliceCopied(s: string, p: nat, t: string, m: nat, n: nat)
    requires p + n <= |s| && m + n <= |t|
    requires forall x :: m <= x < m + n ==> t[x] == s[p + (x - m)]
    ensures s[p..p + n] == t[m..m + n]
  {
    var u, v := s[p..p + n], t[m..m + n];
    forall i | 0 <= i < n ensures u[i] == v[i] {
      assert t[m + i] == s[p + (m + i - m)];
    }
  }

  // The characters of a name found are characters of the input, next to each other and
  // outside every region.
  lemma NameCopied(s: string, m: nat) returns (p: nat)
    requires TableAt(StripFrom(s, 0), m)
    ensures p + NAME_LENGTH <= |s| && s[p..p + NAME_LENGTH] == StripFrom(s, 0)[m..m + NAME_LENGTH]
    ensures forall x :: m <= x < m + NAME_LENGTH ==> Origins(s, 0)[x] == p + (x - m)
    ensures forall x :: p <= x < p + NAME_LENGTH ==> !Removed(s, 0, x)
  {
    hide IsTableName, IsWord, MatchAt, StripFrom, Origins, Removed;
    var t, os := StripFrom(s, 0), Origins(s, 0);
    OriginsTraced(s, 0);
    NoBlankWord();
    forall x | m <= x < m + NAME_LENGTH ensures os[x] != REMOVED {
      WordsInName(t[m..m + NAME_LENGTH], x - m);
      assert t[m..m + NAME_LENGTH][x - m] == t[x];
      assert Traced(s, t[x], os[x]);
    }
    RunCopied(s, m, m + NAME_LENGTH);
    p := os[m];
    forall x | m <= x < m + NAME_LENGTH ensures 0 <= os[x] < |s| && t[x] == s[p + (x - m)] {
      assert Traced(s, t[x], os[x]);
    }
    var last := m + NAME_LENGTH - 1;
    assert os[last] == p + NAME_LENGTH - 1;
    SliceCopied(s, p, t, m, NAME_LENGTH);
    forall y | p <= y < p + NAME_LENGTH ensures !Removed(s, 0, y) {
      var k := m + (y - p);
      assert os[k] == y;
      OriginsKept(s, 0, y);
    }
  }

  lemma TableWasThere(s: string, m: nat)
    requires TableAt(StripCommentsAndLiterals(s), m)
    ensures Mentioned(s, StripCommentsAndLiterals(s)[m..m + NAME_LENGTH])
  {
    hide IsTableName, IsWord, MatchAt, StripFrom, Origins, Removed;
    var t, os := StripFrom(s, 0), Origins(s, 0);
    var p := NameCopied(s, m);
    OriginsTraced(s, 0);
    var last := m + NAME_LENGTH - 1;
    OriginsNeighbours(s, 0, m);
    OriginsNeighbours(s, 0, last);
    WordsInName(s[p..p + NAME_LENGTH], 0);
    WordsInName(s[p..p + NAME_LENGTH], NAME_LENGTH - 1);
    assert m > 0 ==> Traced(s, t[m - 1], os[m - 1]);
    assert last + 1 < |t| ==> Traced(s, t[last + 1], os[last + 1]);
    assert TableAt(s, p);
  }

  // The pattern finds in the scrubbed text exactly the table names that stand
  // outside every comment and literal of the statement.
  lemma TablesFound(s: string, n: string)
    ensures n in TableNames(StripCommentsAndLiterals(s), 0) <==> Mentioned(s, n)
  {
    hide IsTableName, IsWord, MatchAt;
    var t := StripCommentsAndLiterals(s);
    TableNamesComplete(t, 0, n);
    if n in TableNames(t, 0) {
      var m :| 0 <= m < |t| && TableAt(t, m) && t[m..m + NAME_LENGTH] == n;
      TableWasThere(s, m);
    }
    if Mentioned(s, n) {
      var p: nat :| TableAt(s, p) && s[p..p + NAME_LENGTH] == n && forall x :: p <= x < p + NAME_LENGTH ==>
        !Removed(s, 0, x);
      TableSurvives(s, p);
      var m :| 0 <= m < |t| && TableAt(t, m) && t[m..m + NAME_LENGTH] == s[p..p + NAME_LENGTH];
      assert TableAt(t, m) && t[m..m + NAME_LENGTH] == n;
      assert n in TableNames(t, 0);
    }
  }

  // The parsed names, then each further name the pattern finds, once whatever its case.
  method GetRealTables(parsed: seq<string>, sql: string) returns (tables: seq<string>)
    ensures parsed <= tables
    ensures forall i :: |parsed| <= i < |tables| ==> Mentioned(sql, tables[i])
    ensures forall i, j :: 0 <= i < j < |tables| && |parsed| <= j ==> Upper(tables[i]) != Upper(tables[j])
    ensures forall n :: Mentioned(sql, n) ==> HasKey(tables, Upper, Upper(n))
  {
    hide Mentioned, TableNames, StripFrom;
    tables := parsed;
    var found := TableNames(StripCommentsAndLiterals(sql), 0);
    forall n ensures n in found <==> Mentioned(sql, n) {
      TablesFound(sql, n);
    }
    var seen := set i | 0 <= i < |parsed| :: Upper(parsed[i]);
    for k := 0 to |found|
      invariant parsed <= tables
      invariant forall u :: u in seen <==> HasKey(tables, Upper, u)
      invariant forall i :: |parsed| <= i < |tables| ==> Mentioned(sql, tables[i])
      invariant forall i, j :: 0 <= i < j < |tables| && |parsed| <= j ==> Upper(tables[i]) != Upper(tables[j])
      invariant forall i :: 0 <= i < k ==> HasKey(tables, Upper, Upper(found[i]))
    {
      var u := Upper(found[k]);
      forall v ensures HasKey(tables + [found[k]], Upper, v) <==> HasKey(tables, Upper, v) || u == v {
        HasKeyPush(tables, found[k], Upper, v);
      }
      if u !in seen {
        assert !HasKey(tables, Upper, u);
        seen := seen + {u};
        tables := tables + [found[k]];
      }
    }
  }
}
