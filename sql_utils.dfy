/** The SQL gate of RAG/sql_utils.py: the normaliser that strips a Markdown
    code fence from model output, and the validator that accepts only a
    single allowlisted SELECT. The SQL parser is a foreign library: its output
    (statement count, statement type, top-level tokens) is an input here. */
module SqlUtils {
  import opened Text

  const SqlFence := "```sql"
  const Fence := "```"

  /** clean_sql_query: strip, drop a leading "```sql" (any case) and the
      whitespace after it, then drop a trailing "```" and the whitespace
      before it. */
  function CleanSqlQuery(sql: string): string
  {
    DropClosingFence(DropOpeningFence(Strip(sql)))
  }

  /** The cleaned query is one contiguous piece of the model's output, with
      no whitespace left at either end. */
  lemma CleanSqlQueryIsTrimmedSlice(sql: string)
    ensures Trimmed(CleanSqlQuery(sql))
    ensures exists i, j :: 0 <= i <= j <= |sql| && CleanSqlQuery(sql) == sql[i..j]
  {
    var a, b := StripIsTrimmedSlice(sql);
    var s := Strip(sql);
    var i, j := FencedSlice(s);
    TrimmedInside(s, i, j);
    SliceOfSlice(sql, a, b, i, j);
  }

  /** A slice of a trimmed string is trimmed when each end is an end of the
      string or a visible character. */
  lemma TrimmedInside(s: string, i: nat, j: nat)
    requires Trimmed(s) && i <= j <= |s|
    requires i < j && i != 0 ==> s[i] !in WhitespaceChars
    requires i < j && j != |s| ==> s[j - 1] !in WhitespaceChars
    ensures Trimmed(s[i..j])
  {
    if i < j {
      assert s[i..j][0] == s[i] && s[i..j][j - i - 1] == s[j - 1];
    }
  }

  /** What the normaliser removes from the stripped text: at the front
      nothing, or a "```sql" fence (any case) and the whitespace after it; at
      the back nothing, or a "```" fence and the whitespace before it. Text
      with neither fence is returned as `strip()` leaves it. Conversely, a
      fence that is there is cut: an opening "```sql" in any case, and a
      closing "```" left after the opening step. */
  lemma CleanSqlQueryRemovesOnlyFences(sql: string)
    ensures var s := Strip(sql);
      exists i, j ::
        && 0 <= i <= j <= |s| && CleanSqlQuery(sql) == s[i..j]
        && (i == 0 || (StartsWith(Lower(s), SqlFence) && |SqlFence| <= i && Blank(s[|SqlFence|..i])))
        && (j == |s| || (EndsWith(s, Fence) && j <= |s| - |Fence| && Blank(s[j..|s| - |Fence|])))
        && (StartsWith(Lower(s), SqlFence) ==> |SqlFence| <= i)
        && (EndsWith(s[i..], Fence) ==> j <= |s| - |Fence|)
  {
    var i, j := FencedSlice(Strip(sql));
  }

  /** Both fence steps together keep `s[i..j]`: `i` is where the opening
      fence ends and `j` where the closing fence begins, and a kept text
      starts and ends with what `s` had there or with a visible character. */
  lemma FencedSlice(s: string) returns (i: nat, j: nat)
    ensures i <= j <= |s| && DropClosingFence(DropOpeningFence(s)) == s[i..j]
    ensures i == 0 || (StartsWith(Lower(s), SqlFence) && |SqlFence| <= i && Blank(s[|SqlFence|..i]))
    ensures j == |s| || (EndsWith(s, Fence) && j <= |s| - |Fence| && Blank(s[j..|s| - |Fence|]))
    ensures i < j && i != 0 ==> s[i] !in WhitespaceChars
    ensures i < j && j != |s| ==> s[j - 1] !in WhitespaceChars
    ensures StartsWith(Lower(s), SqlFence) ==> |SqlFence| <= i
    ensures EndsWith(s[i..], Fence) ==> j <= |s| - |Fence|
  {
    i := OpeningFenceBound(s);
    j := ClosingFenceAfter(s, i);
  }

  /** ClosingFenceBound on what the opening fence leaves, `s[i..]`, stated
      in positions of `s`. */
  lemma ClosingFenceAfter(s: string, i: nat) returns (j: nat)
    requires i <= |s|
    ensures i <= j <= |s| && DropClosingFence(s[i..]) == s[i..j]
    ensures j == |s| || (EndsWith(s, Fence) && j <= |s| - |Fence| && Blank(s[j..|s| - |Fence|]))
    ensures i < j < |s| ==> s[j - 1] !in WhitespaceChars
    ensures EndsWith(s[i..], Fence) ==> j <= |s| - |Fence|
  {
    var k := ClosingFenceBound(s[i..]);
    j := i + k;
    SuffixSlices(s, i, k, |Fence|);
  }

  /** A query wrapped in a fenced block, one line break inside each fence,
      comes back as it was; "```sql\nSELECT 1\n```" gives "SELECT 1". */
  lemma CleanSqlQueryUnwrapsFencedBlock(body: string)
    requires body != [] && Trimmed(body)
    ensures CleanSqlQuery(SqlFence + "\n" + body + "\n" + Fence) == body
  {
    var s := SqlFence + "\n" + body + "\n" + Fence;
    StripUnpadded(s);
    OpeningFenceOfBlock(body);
    ClosingFenceOfBlock(body);
  }

  lemma OpeningFenceOfBlock(body: string)
    requires body != [] && body[0] !in WhitespaceChars
    ensures DropOpeningFence(SqlFence + "\n" + body + "\n" + Fence) == body + "\n" + Fence
  {
    var s := SqlFence + "\n" + body + "\n" + Fence;
    var u := body + "\n" + Fence;
    assert s[..|SqlFence|] == SqlFence;
    assert Lower(SqlFence) == SqlFence;
    LowerPrefix(s, SqlFence);
    assert s[|SqlFence|..] == ['\n'] + u;
    LStripOne('\n', u);
  }

  lemma ClosingFenceOfBlock(body: string)
    requires body != [] && Trimmed(body)
    ensures DropClosingFence(body + "\n" + Fence) == body
  {
    var u := body + "\n" + Fence;
    assert Lower(Fence) == Fence;
    assert u[|u| - |Fence|..] == Fence;
    LowerSuffix(u, Fence);
    assert u[..|u| - |Fence|] == body + ['\n'];
    RStripOne(body, '\n');
  }

  /** The first `if` of clean_sql_query; the offset comes from `find` as in
      the source. */
  function DropOpeningFence(s: string): string
  {
    if StartsWith(Lower(s), SqlFence) then
      LStrip(s[Find(Lower(s), SqlFence) + |SqlFence|..])
    else s
  }

  /** The second `if` of clean_sql_query; the offset comes from `rfind`. */
  function DropClosingFence(s: string): string
  {
    if EndsWith(Lower(s), Fence) then
      RStrip(s[..RFind(Lower(s), Fence)])
    else s
  }

  /** Where the opening fence ends: the kept text is `s[i..]`. */
  lemma OpeningFenceBound(s: string) returns (i: nat)
    ensures i <= |s| && DropOpeningFence(s) == s[i..]
    ensures i == 0 || (StartsWith(Lower(s), SqlFence) && |SqlFence| <= i && Blank(s[|SqlFence|..i]))
    ensures i < |s| && i != 0 ==> s[i] !in WhitespaceChars
    ensures StartsWith(Lower(s), SqlFence) ==> |SqlFence| <= i
  {
    if StartsWith(Lower(s), SqlFence) {
      var u := s[|SqlFence|..];
      var c := LeadingIn(u, WhitespaceChars);
      i := |SqlFence| + c;
      SuffixSlices(s, |SqlFence|, c, 0);
      assert s[i..] == u[c..];
      assert s[|SqlFence|..i] == u[..c];
    } else {
      i := 0;
    }
  }

  /** Where the closing fence begins: the kept text is `s[..j]`. */
  lemma ClosingFenceBound(s: string) returns (j: nat)
    ensures j <= |s| && DropClosingFence(s) == s[..j]
    ensures j == |s| || (EndsWith(s, Fence) && j <= |s| - |Fence| && Blank(s[j..|s| - |Fence|]))
    ensures 0 < j < |s| ==> s[j - 1] !in WhitespaceChars
    ensures EndsWith(s, Fence) ==> j <= |s| - |Fence|
  {
    if EndsWith(s, Fence) {
      assert Lower(Fence) == Fence;
      LowerSuffix(s, Fence);
    }
    if EndsWith(Lower(s), Fence) {
      LowerFence(s);
      var v := s[..|s| - |Fence|];
      var d := TrailingIn(v, WhitespaceChars);
      j := |v| - d;
      assert s[..j] == v[..|v| - d];
      assert s[j..|s| - |Fence|] == v[|v| - d..];
    } else {
      j := |s|;
    }
  }

  /** Lower-casing does not create or destroy a backtick. */
  lemma LowerFence(x: string)
    requires EndsWith(Lower(x), Fence)
    ensures EndsWith(x, Fence)
  {
    assert forall k :: |x| - 3 <= k < |x| ==> Lower(x)[k] == '`';
  }

  // ---------------------------------------------------------------------
  // is_valid_sql

  /** One token of a parsed statement, as the validator inspects it. */
  datatype Token =
    | Whitespace                        // `is_whitespace` holds: blanks and line breaks
    | Keyword(value: string)            // a token whose ttype is exactly Keyword
    | Identifier(name: string)          // `get_name()`; "" when it gives None or ""
    | IdentifierList(items: seq<Token>) // a comma-separated group and its tokens
    | Parenthesis
    | Punctuation
    | Other                             // DML/DDL keywords, literals, operators, clauses, ...

  /** One parsed statement: what `get_type()` says and its top-level tokens. */
  datatype Statement = Statement(stmtType: string, tokens: seq<Token>)

  /** What the parser gives for the cleaned text: its statements, or an
      exception raised while parsing or classifying. */
  datatype Parse = ParseError | Parsed(statements: seq<Statement>)

  /** The literal substrings the gate refuses in the lower-cased text. The
      blanks are part of each pattern; " union" has a leading one only. */
  const ForbiddenPatterns: seq<string> := [
    " insert ", " update ", " delete ", " alter ", " create ", " drop ",
    " truncate ", " replace ", " grant ", " revoke ", "--", "/*", "*/",
    " union", " into ", " outfile ", " dumpfile "
  ]

  predicate HasForbiddenPattern(text: string)
  {
    exists k :: 0 <= k < |ForbiddenPatterns| && Contains(text, ForbiddenPatterns[k])
  }

  /** The characters `strip(' ;')` removes before the semicolon check. */
  const SemicolonStrip: set<char> := {' ', ';'}

  predicate IsFromOrJoin(t: Token)
  {
    t.Keyword? && Upper(t.value) in {"FROM", "JOIN"}
  }

  /** Where the scan lands after skipping whitespace tokens from `from` on;
      `|tokens|` when nothing but whitespace is left. */
  function NextSignificant(tokens: seq<Token>, from: nat): (k: nat)
    requires from <= |tokens|
    ensures from <= k <= |tokens|
    decreases |tokens| - from
  {
    if from < |tokens| && tokens[from].Whitespace? then NextSignificant(tokens, from + 1) else from
  }

  /** The lower-cased name an entry of an identifier list contributes. */
  function ItemName(t: Token): set<string>
  {
    if t.Identifier? && t.name != "" then {Lower(t.name)} else {}
  }

  /** The names collected from the entries of an identifier list. */
  function ListNames(items: seq<Token>): set<string>
  {
    if items == [] then {}
    else ListNames(items[..|items| - 1]) + ItemName(items[|items| - 1])
  }

  /** The names a FROM/JOIN target adds to the referenced set. A lone
      identifier adds nothing: its name is computed, but the `continue` that
      follows skips the update of the referenced set. */
  function TargetNames(target: Token): set<string>
  {
    match target
    case IdentifierList(items) => ListNames(items)
    case _ => {}
  }

  /** The outcome of the FROM/JOIN scan. */
  datatype ScanResult = MissingTarget | Collected(names: set<string>)

  function Combine(names: set<string>, rest: ScanResult): ScanResult
  {
    match rest
    case MissingTarget => MissingTarget
    case Collected(more) => Collected(names + more)
  }

  /** The scan of the top-level tokens from position `i` on. A FROM or JOIN
      keyword consumes the next non-whitespace token as its target; running
      out of tokens first is a missing target. */
  function ScanFrom(tokens: seq<Token>, i: nat): ScanResult
    requires i <= |tokens|
    decreases |tokens| - i
  {
    if i == |tokens| then Collected({})
    else if IsFromOrJoin(tokens[i]) then
      var k := NextSignificant(tokens, i + 1);
      if k == |tokens| then MissingTarget
      else Combine(TargetNames(tokens[k]), ScanFrom(tokens, k + 1))
    else ScanFrom(tokens, i + 1)
  }

  /** The decision of is_valid_sql, check by check. */
  predicate ValidSql(sql: string, parsed: Parse, allowed: set<string>)
  {
    && Strip(sql) != ""
    && !HasForbiddenPattern(Strip(Lower(sql)))
    && ';' !in StripSet(sql, SemicolonStrip)
    && parsed.Parsed? && |parsed.statements| == 1
    && parsed.statements[0].stmtType == "SELECT"
    && var scan := ScanFrom(parsed.statements[0].tokens, 0);
       scan.Collected? && scan.names <= allowed
  }

  /** is_valid_sql: the checks in the source's order; the token scan and
      the allowlist loop are the two methods below. */
  method IsValidSql(sql: string, parsed: Parse, allowed: set<string>) returns (ok: bool)
    ensures ok == ValidSql(sql, parsed, allowed)
  {
    if Strip(sql) == "" {
      return false;
    }
    var sqlLower := Strip(Lower(sql));
    if HasForbiddenPattern(sqlLower) {
      return false;
    }
    if ';' in StripSet(sql, SemicolonStrip) {
      return false;
    }
    if !parsed.Parsed? || |parsed.statements| != 1 {
      return false;
    }
    var statement := parsed.statements[0];
    if statement.stmtType != "SELECT" {
      return false;
    }
    var missing, referenced := ScanTableNames(statement.tokens);
    if missing {
      return false;
    }
    ok := AllAllowed(referenced, allowed);
  }

  /** The FROM/JOIN scan of is_valid_sql: an outer loop over the top-level
      tokens and, after FROM or JOIN, an inner loop to the next
      non-whitespace token. `missing` is the early `return False` taken when
      the tokens run out first. */
  method ScanTableNames(tokens: seq<Token>) returns (missing: bool, referenced: set<string>)
    ensures ScanFrom(tokens, 0) == if missing then MissingTarget else Collected(referenced)
  {
    referenced := {};
    var i := 0;
    while i < |tokens|
      invariant i <= |tokens|
      invariant ScanFrom(tokens, 0) == Combine(referenced, ScanFrom(tokens, i))
      decreases |tokens| - i
    {
      var token := tokens[i];
      i := i + 1;
      if token.Whitespace? {
        continue;
      }
      if IsFromOrJoin(token) {
        ghost var at := i - 1;
        var next := Other;
        var found := false;
        while !found
          invariant at < i <= |tokens|
          invariant !found ==> NextSignificant(tokens, at + 1) == NextSignificant(tokens, i)
          invariant found ==> NextSignificant(tokens, at + 1) == i - 1 && next == tokens[i - 1]
          decreases |tokens| - i, if found then 0 else 1
        {
          if i == |tokens| {
            // the iterator is exhausted: no table or view after FROM/JOIN
            return true, referenced;
          }
          next := tokens[i];
          i := i + 1;
          if !next.Whitespace? {
            found := true;
          }
        }
        var namesToAdd: set<string> := {};
        match next {
          case Identifier(name) =>
            if name != "" {
              namesToAdd := {Lower(name)};
            }
            CombineEmpty(ScanFrom(tokens, i));
            continue;
          case IdentifierList(items) =>
            namesToAdd := ListTableNames(items);
          case Parenthesis =>
          case _ =>
        }
        CombineAssoc(referenced, namesToAdd, ScanFrom(tokens, i));
        referenced := referenced + namesToAdd;
      }
    }
    missing := false;
  }

  /** The loop over the entries of an identifier list: blanks, punctuation
      and keywords are skipped, identifiers with a name contribute it
      lower-cased. */
  method ListTableNames(items: seq<Token>) returns (names: set<string>)
    ensures names == ListNames(items)
  {
    names := {};
    for j := 0 to |items|
      invariant names == ListNames(items[..j])
    {
      var item := items[j];
      assert items[..j + 1][..j] == items[..j];
      if item.Whitespace? || item.Punctuation? || item.Keyword? {
        continue;
      }
      if item.Identifier? && item.name != "" {
        names := names + {Lower(item.name)};
      }
    }
    assert items[..|items|] == items;
  }

  /** The final loop of is_valid_sql: false at the first referenced name
      outside the allowlist. */
  method AllAllowed(referenced: set<string>, allowed: set<string>) returns (ok: bool)
    ensures ok <==> referenced <= allowed
  {
    var remaining := referenced;
    while remaining != {}
      invariant remaining <= referenced
      invariant referenced - remaining <= allowed
      decreases |remaining|
    {
      var name :| name in remaining;
      if name !in allowed {
        return false;
      }
      remaining := remaining - {name};
    }
    return true;
  }

  lemma CombineEmpty(r: ScanResult)
    ensures Combine({}, r) == r
  {
    if r.Collected? {
      assert {} + r.names == r.names;
    }
  }

  lemma CombineAssoc(a: set<string>, b: set<string>, r: ScanResult)
    ensures Combine(a, Combine(b, r)) == Combine(a + b, r)
  {
    if r.Collected? {
      assert a + (b + r.names) == (a + b) + r.names;
    }
  }

  // ---------------------------------------------------------------------
  // Properties of the gate

  /** Every rejection path of is_valid_sql: an accepted query is non-blank,
      free of the forbidden patterns, has no semicolon once blanks and
      semicolons are stripped from its ends, parses into exactly one SELECT,
      has a target after every FROM/JOIN the scan reaches, and references
      only allowlisted names. */
  lemma ValidSqlRequiresEveryCheck(sql: string, parsed: Parse, allowed: set<string>)
    requires ValidSql(sql, parsed, allowed)
    ensures Strip(sql) != ""
    ensures forall k :: 0 <= k < |ForbiddenPatterns| ==> !Contains(Strip(Lower(sql)), ForbiddenPatterns[k])
    ensures ';' !in StripSet(sql, SemicolonStrip)
    ensures parsed.Parsed? && |parsed.statements| == 1 && parsed.statements[0].stmtType == "SELECT"
    ensures ScanFrom(parsed.statements[0].tokens, 0).Collected?
    ensures forall name :: name in ScanFrom(parsed.statements[0].tokens, 0).names ==> name in allowed
  {
  }

  /** An entry name is collected from an identifier list exactly when some
      entry is an identifier with that non-empty name, lower-cased. */
  lemma {:induction false} ListNamesMembers(items: seq<Token>, x: string)
    ensures x in ListNames(items) <==>
      exists k :: 0 <= k < |items| && items[k].Identifier? && items[k].name != "" && Lower(items[k].name) == x
  {
    if items != [] {
      var init := items[..|items| - 1];
      ListNamesMembers(init, x);
      if x in ListNames(init) {
        var k :| 0 <= k < |init| && init[k].Identifier? && init[k].name != "" && Lower(init[k].name) == x;
        assert items[k] == init[k];
      }
      if exists k :: 0 <= k < |items| && items[k].Identifier? && items[k].name != "" && Lower(items[k].name) == x {
        var k :| 0 <= k < |items| && items[k].Identifier? && items[k].name != "" && Lower(items[k].name) == x;
        if k < |init| {
          assert init[k] == items[k];
        }
      }
    }
  }

  /** Skipping whitespace only looks at the tokens it skips and the one it
      stops at. */
  lemma {:induction false} NextSignificantConcat(a: seq<Token>, b: seq<Token>, from: nat)
    requires from <= |a| && NextSignificant(a, from) < |a|
    ensures NextSignificant(a + b, from) == NextSignificant(a, from)
    decreases |a| - from
  {
    assert (a + b)[from] == a[from];
    if a[from].Whitespace? {
      NextSignificantConcat(a, b, from + 1);
    }
  }

  /** A token sequence whose scan completes can be followed by anything: the
      names it collects are kept and the scan resumes after it. */
  lemma {:induction false} ScanConcat(a: seq<Token>, b: seq<Token>, i: nat)
    requires i <= |a| && ScanFrom(a, i).Collected?
    ensures ScanFrom(a + b, i) == Combine(ScanFrom(a, i).names, ScanFrom(a + b, |a|))
    decreases |a| - i
  {
    if i == |a| {
      CombineEmpty(ScanFrom(a + b, |a|));
    } else {
      assert (a + b)[i] == a[i];
      if IsFromOrJoin(a[i]) {
        var k := NextSignificant(a, i + 1);
        NextSignificantConcat(a, b, i + 1);
        assert (a + b)[k] == a[k];
        ScanConcat(a, b, k + 1);
        CombineAssoc(TargetNames(a[k]), ScanFrom(a, k + 1).names, ScanFrom(a + b, |a|));
      } else {
        ScanConcat(a, b, i + 1);
      }
    }
  }

  /** A FROM or JOIN keyword that the scan reaches and that is followed only
      by whitespace makes the query invalid. */
  lemma DanglingFromOrJoinRejected(sql: string, stmtType: string, before: seq<Token>, keyword: Token,
                                   blanks: seq<Token>, allowed: set<string>)
    requires ScanFrom(before, 0).Collected? && IsFromOrJoin(keyword)
    requires forall m :: 0 <= m < |blanks| ==> blanks[m].Whitespace?
    ensures !ValidSql(sql, Parsed([Statement(stmtType, before + [keyword] + blanks)]), allowed)
  {
    var tail := [keyword] + blanks;
    var tokens := before + tail;
    assert before + [keyword] + blanks == tokens;
    ScanConcat(before, tail, 0);
    AllWhitespaceSkipped(tokens, |before| + 1);
    assert tokens[|before|] == keyword;
    assert ScanFrom(tokens, |before|) == MissingTarget;
  }

  lemma {:induction false} AllWhitespaceSkipped(tokens: seq<Token>, from: nat)
    requires from <= |tokens|
    requires forall m :: from <= m < |tokens| ==> tokens[m].Whitespace?
    ensures NextSignificant(tokens, from) == |tokens|
    decreases |tokens| - from
  {
    if from < |tokens| {
      AllWhitespaceSkipped(tokens, from + 1);
    }
  }

  /** Every name the scan collects comes from an identifier list that is
      the target of a FROM or JOIN: the first token after the keyword that
      is not whitespace. Lone identifiers, parentheses, other targets and
      lists anywhere else contribute nothing. */
  lemma {:induction false} CollectedNamesComeFromLists(tokens: seq<Token>, i: nat, x: string)
    requires i <= |tokens| && ScanFrom(tokens, i).Collected? && x in ScanFrom(tokens, i).names
    ensures exists j, k :: i <= j < k < |tokens| && IsFromOrJoin(tokens[j]) && NextSignificant(tokens, j + 1) == k
              && tokens[k].IdentifierList? && x in ListNames(tokens[k].items)
    decreases |tokens| - i
  {
    if IsFromOrJoin(tokens[i]) {
      var k := NextSignificant(tokens, i + 1);
      if x in TargetNames(tokens[k]) {
        assert tokens[k].IdentifierList?;
      } else {
        CollectedNamesComeFromLists(tokens, k + 1, x);
      }
    } else {
      CollectedNamesComeFromLists(tokens, i + 1, x);
    }
  }

  /** A FROM/JOIN whose target is a lone identifier puts nothing in the
      referenced set, whatever `get_name()` gives: "SELECT * FROM users"
      passes the allowlist check with any allowlist, "users" included or
      not. */
  lemma SingleTableIsNotChecked(sql: string, keyword: string, name: string, allowed: set<string>)
    requires Upper(keyword) in {"FROM", "JOIN"}
    requires Strip(sql) != "" && !HasForbiddenPattern(Strip(Lower(sql))) && ';' !in StripSet(sql, SemicolonStrip)
    ensures ValidSql(sql, Parsed([Statement("SELECT",
              [Other, Whitespace, Other, Whitespace, Keyword(keyword), Whitespace, Identifier(name)])]), allowed)
  {
    var tokens := [Other, Whitespace, Other, Whitespace, Keyword(keyword), Whitespace, Identifier(name)];
    assert NextSignificant(tokens, 7) == 7;
    assert NextSignificant(tokens, 5) == 6;
    assert ScanFrom(tokens, 7) == Collected({});
    assert ScanFrom(tokens, 4) == Combine({}, Collected({})) == Collected({});
    assert ScanFrom(tokens, 0) == ScanFrom(tokens, 1) == ScanFrom(tokens, 2) == ScanFrom(tokens, 3) == ScanFrom(tokens, 4);
  }

  /** A FROM or JOIN that is itself the target of an earlier FROM or JOIN is
      consumed by the look-ahead and never examined, so "SELECT * FROM JOIN"
      passes for any allowlist although its JOIN is followed by nothing. */
  lemma KeywordTargetIsSkipped(sql: string, first: string, second: string, allowed: set<string>)
    requires Upper(first) in {"FROM", "JOIN"} && Upper(second) in {"FROM", "JOIN"}
    requires Strip(sql) != "" && !HasForbiddenPattern(Strip(Lower(sql))) && ';' !in StripSet(sql, SemicolonStrip)
    ensures ValidSql(sql, Parsed([Statement("SELECT",
              [Other, Whitespace, Other, Whitespace, Keyword(first), Whitespace, Keyword(second)])]), allowed)
  {
    var tokens := [Other, Whitespace, Other, Whitespace, Keyword(first), Whitespace, Keyword(second)];
    assert NextSignificant(tokens, 7) == 7;
    assert NextSignificant(tokens, 5) == 6;
    assert ScanFrom(tokens, 7) == Collected({});
    assert ScanFrom(tokens, 4) == Combine({}, Collected({})) == Collected({});
    assert ScanFrom(tokens, 0) == ScanFrom(tokens, 1) == ScanFrom(tokens, 2) == ScanFrom(tokens, 3) == ScanFrom(tokens, 4);
  }

  /** The aliased join of the prompt example in RAG/service.py, "SELECT
      e.name FROM events_view
      AS e JOIN organizations_view AS o ON ...": both targets are lone
      identifiers, so the scan collects no name at all. */
  lemma AliasedJoinCollectsNothing(column: string, first: string, second: string)
    ensures ScanFrom([Other, Whitespace, Identifier(column), Whitespace, Keyword("FROM"), Whitespace,
                      Identifier(first), Whitespace, Keyword("JOIN"), Whitespace, Identifier(second),
                      Whitespace, Keyword("ON"), Whitespace, Other], 0) == Collected({})
  {
    var tokens := [Other, Whitespace, Identifier(column), Whitespace, Keyword("FROM"), Whitespace,
                   Identifier(first), Whitespace, Keyword("JOIN"), Whitespace, Identifier(second),
                   Whitespace, Keyword("ON"), Whitespace, Other];
    assert Upper("FROM") == "FROM" && Upper("JOIN") == "JOIN";
    assert Upper("ON") !in {"FROM", "JOIN"} by {
      assert |Upper("ON")| == 2;
    }
    assert ScanFrom(tokens, 15) == Collected({});
    assert ScanFrom(tokens, 11) == ScanFrom(tokens, 12) == ScanFrom(tokens, 13) == ScanFrom(tokens, 14) == ScanFrom(tokens, 15);
    assert NextSignificant(tokens, 9) == 10;
    assert ScanFrom(tokens, 8) == Combine({}, ScanFrom(tokens, 11)) == Collected({});
    assert ScanFrom(tokens, 7) == ScanFrom(tokens, 8);
    assert NextSignificant(tokens, 5) == 6;
    assert ScanFrom(tokens, 4) == Combine({}, ScanFrom(tokens, 7)) == Collected({});
    assert ScanFrom(tokens, 0) == ScanFrom(tokens, 1) == ScanFrom(tokens, 2) == ScanFrom(tokens, 3) == ScanFrom(tokens, 4);
  }

  /** A comma-separated FROM or JOIN list is checked entry by entry: once
      the scan reaches a FROM/JOIN whose target is a list naming a table
      that is not allowlisted, the query is refused, whatever comes after
      the list. "SELECT * FROM events_view, users" is refused when "users"
      is not allowlisted. */
  lemma ListTargetIsChecked(sql: string, stmtType: string, before: seq<Token>, keyword: Token,
                            blanks: seq<Token>, items: seq<Token>, after: seq<Token>,
                            allowed: set<string>, x: string)
    requires ScanFrom(before, 0).Collected? && IsFromOrJoin(keyword)
    requires forall m :: 0 <= m < |blanks| ==> blanks[m].Whitespace?
    requires x in ListNames(items) && x !in allowed
    ensures !ValidSql(sql, Parsed([Statement(stmtType, before + [keyword] + blanks + [IdentifierList(items)] + after)]), allowed)
  {
    ListTargetCollected(before, keyword, blanks, items, after);
  }

  /** The scan behind ListTargetIsChecked: if it completes, it has collected
      every name of the list. */
  lemma ListTargetCollected(before: seq<Token>, keyword: Token, blanks: seq<Token>,
                            items: seq<Token>, after: seq<Token>)
    requires ScanFrom(before, 0).Collected? && IsFromOrJoin(keyword)
    requires forall m :: 0 <= m < |blanks| ==> blanks[m].Whitespace?
    ensures var r := ScanFrom(before + [keyword] + blanks + [IdentifierList(items)] + after, 0);
      r.Collected? ==> ListNames(items) <= r.names
  {
    var tail := [keyword] + blanks + [IdentifierList(items)] + after;
    var tokens := before + tail;
    assert before + [keyword] + blanks + [IdentifierList(items)] + after == tokens;
    ScanConcat(before, tail, 0);
    var k := |before| + 1 + |blanks|;
    assert tokens[|before|] == keyword && tokens[k] == IdentifierList(items);
    WhitespaceRunSkipped(tokens, |before| + 1, k);
    assert ScanFrom(tokens, |before|) == Combine(ListNames(items), ScanFrom(tokens, k + 1));
  }

  /** Skipping whitespace from `from` stops at the first token that is not
      whitespace. */
  lemma {:induction false} WhitespaceRunSkipped(tokens: seq<Token>, from: nat, stop: nat)
    requires from <= stop < |tokens|
    requires forall m :: from <= m < stop ==> tokens[m].Whitespace?
    requires !tokens[stop].Whitespace?
    ensures NextSignificant(tokens, from) == stop
    decreases stop - from
  {
    if from < stop {
      WhitespaceRunSkipped(tokens, from + 1, stop);
    }
  }

  /** The multi-statement guard strips blanks and semicolons from both ends
      only: a statement followed (or preceded) by semicolons and blanks gets
      past it, so one trailing ';' is accepted. */
  lemma OuterSemicolonsPassGuard(lead: string, body: string, tail: string)
    requires forall k :: 0 <= k < |lead| ==> lead[k] in SemicolonStrip
    requires forall k :: 0 <= k < |tail| ==> tail[k] in SemicolonStrip
    requires body != [] && body[0] !in SemicolonStrip && body[|body| - 1] !in SemicolonStrip
    requires ';' !in body
    ensures ';' !in StripSet(lead + body + tail, SemicolonStrip)
  {
    StripSetAround(lead, body, tail, SemicolonStrip);
  }

  /** A semicolon with something other than blanks and semicolons on either
      side is fatal: "a; b" and "a;\n" are both refused, whatever they parse
      to. */
  lemma InnerSemicolonRejected(before: string, after: string, parsed: Parse, allowed: set<string>)
    requires before != [] && before[0] !in SemicolonStrip
    requires after != [] && after[|after| - 1] !in SemicolonStrip
    ensures ';' in StripSet(before + ";" + after, SemicolonStrip)
    ensures !ValidSql(before + ";" + after, parsed, allowed)
  {
    var s := before + ";" + after;
    assert s[0] == before[0] && s[|s| - 1] == after[|after| - 1];
    StripSetAround("", s, "", SemicolonStrip);
    assert "" + s + "" == s;
    assert s[|before|] == ';';
  }
}
