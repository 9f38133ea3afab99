/** The cleanup the handler applies to the completion service's reply before
    sending it to the database (main.py, line 88): remove every "```sql", then
    every "```", turn each line feed and then each carriage return into one
    space, and strip surrounding whitespace. */
module SqlCleanup {
  import opened PyStr

  /** The opening fence with the one language tag the cleanup knows. */
  const SqlFence: string := "```sql"
  /** A bare code fence: three backticks. */
  const Fence: string := "```"

  /** The two `replace` calls that take out the fences, in the source's order:
      no fence is left and nothing is added. */
  function RemoveFences(raw: string): (r: string)
    ensures !Contains(r, Fence)
    ensures |r| <= |raw|
  {
    NoFenceAfterRemoval(Replace(raw, SqlFence, ""));
    Replace(Replace(raw, SqlFence, ""), Fence, "")
  }

  /** The two `replace` calls that turn line breaks into spaces, in the source's order. */
  function SpaceOutLineBreaks(s: string): string {
    Replace(Replace(s, "\n", " "), "\r", " ")
  }

  /** The generated SQL sent to the database: it holds no fence, no line feed,
      no carriage return and no surrounding whitespace. */
  function CleanGeneratedSql(raw: string): (sql: string)
    ensures !Contains(sql, Fence)
    ensures '\n' !in sql && '\r' !in sql
    ensures Trimmed(sql)
  {
    var noFence := RemoveFences(raw);
    var oneLine := SpaceOutLineBreaks(noFence);
    SpacingKeepsFenceAbsent(noFence);
    SpacingRemovesLineBreaks(noFence);
    StripKeepsClean(oneLine);
    Strip(oneLine)
  }

  // ---------------------------------------------------------------------------
  // Removing "```" leaves no "```" behind

  /** Three backticks start at index `i` of `s`: `OccursAt(s, Fence, i)` spelt
      out character by character, the form the induction below works with. */
  predicate FenceAt(s: string, i: int) {
    0 <= i && i + 2 < |s| && s[i] == '`' && s[i + 1] == '`' && s[i + 2] == '`'
  }

  lemma FenceAtIsOccurrence(s: string, i: int)
    ensures FenceAt(s, i) <==> OccursAt(s, Fence, i)
  {
  }

  /** After fence removal a string that started with a character other than a
      backtick still starts with that character. */
  lemma RemovalKeepsFirst(t: string)
    requires |t| > 0 && t[0] != '`'
    ensures |Replace(t, Fence, "")| > 0 && Replace(t, Fence, "")[0] == t[0]
  {
  }

  /** After fence removal a string that started with one backtick and then
      another character still starts with those two characters. */
  lemma RemovalKeepsFirstTwo(t: string)
    requires |t| > 1 && t[0] == '`' && t[1] != '`'
    ensures |Replace(t, Fence, "")| > 1
    ensures Replace(t, Fence, "")[0] == '`' && Replace(t, Fence, "")[1] == t[1]
  {
  }

  /** Removing every "```" from left to right cannot join backticks from both
      sides of a removed fence into a new one: a run of backticks is left with at
      most two. */
  lemma {:induction false} NoFenceAfterRemoval(s: string)
    ensures !Contains(Replace(s, Fence, ""), Fence)
    decreases |s|
  {
    var r := Replace(s, Fence, "");
    if |s| < 3 {
      forall i | 0 <= i <= |r| ensures !OccursAt(r, Fence, i) { }
    } else if s[..3] == Fence {
      NoFenceAfterRemoval(s[3..]);
      assert r == Replace(s[3..], Fence, "");
    } else {
      var u := Replace(s[1..], Fence, "");
      NoFenceAfterRemoval(s[1..]);
      assert r == [s[0]] + u;
      forall i | 0 <= i <= |r| ensures !OccursAt(r, Fence, i) {
        FenceAtIsOccurrence(r, i);
        if i > 0 {
          FenceAtIsOccurrence(u, i - 1);
          if FenceAt(r, i) { assert FenceAt(u, i - 1); }
        } else if s[0] == '`' {
          if s[1] != '`' {
            RemovalKeepsFirst(s[1..]);
          } else {
            assert s[2] != '`' by { assert s[..3] == [s[0], s[1], s[2]]; }
            RemovalKeepsFirstTwo(s[1..]);
          }
        }
      }
    }
  }

  // ---------------------------------------------------------------------------
  // Line breaks become spaces, one for one

  /** The independent reading of the two line-break replacements: every line
      feed and every carriage return becomes exactly one space, and nothing
      else changes, so "\r\n" becomes two spaces. */
  function SpaceEachLineBreak(s: string): (r: string)
    ensures |r| == |s|
  {
    seq(|s|, i requires 0 <= i < |s| => if s[i] == '\n' || s[i] == '\r' then ' ' else s[i])
  }

  lemma SpacingIsPointwise(s: string)
    ensures SpaceOutLineBreaks(s) == SpaceEachLineBreak(s)
  {
    var t := Replace(s, "\n", " ");
    ReplaceCharPointwise(s, '\n', ' ');
    ReplaceCharPointwise(t, '\r', ' ');
    assert "\n" == ['\n'] && " " == [' '] && "\r" == ['\r'];
  }

  lemma SpacingRemovesLineBreaks(s: string)
    ensures '\n' !in SpaceOutLineBreaks(s) && '\r' !in SpaceOutLineBreaks(s)
  {
    SpacingIsPointwise(s);
  }

  lemma SpacingKeepsFenceAbsent(s: string)
    requires !Contains(s, Fence)
    ensures !Contains(SpaceOutLineBreaks(s), Fence)
  {
    SpacingIsPointwise(s);
    var r := SpaceEachLineBreak(s);
    forall i | 0 <= i <= |r| ensures !OccursAt(r, Fence, i) {
      FenceAtIsOccurrence(r, i);
      FenceAtIsOccurrence(s, i);
    }
  }

  /** Stripping takes characters off the ends only, so it brings back no fence
      and no line break. */
  lemma StripKeepsClean(t: string)
    requires !Contains(t, Fence) && '\n' !in t && '\r' !in t
    ensures !Contains(Strip(t), Fence) && '\n' !in Strip(t) && '\r' !in Strip(t)
  {
    var sql := Strip(t);
    var i :| 0 <= i <= |t| && PaddedAt(t, sql, i);
    InfixKeepsAbsence(t, i, i + |sql|, Fence);
  }

  /** The whole cleanup, read rule by rule: fences out, each line break one
      space, surrounding whitespace stripped. */
  lemma {:induction false} CleanupRules(raw: string)
    ensures CleanGeneratedSql(raw) == Strip(SpaceEachLineBreak(RemoveFences(raw)))
  {
    SpacingIsPointwise(RemoveFences(raw));
  }

  // ---------------------------------------------------------------------------
  // Pass-through and idempotence

  lemma FenceAbsentSqlFenceAbsent(s: string)
    requires !Contains(s, Fence)
    ensures !Contains(s, SqlFence)
  {
    if i :| 0 <= i <= |s| && OccursAt(s, SqlFence, i) {
      assert s[i..i + 6][..3] == s[i..i + 3];
      assert OccursAt(s, Fence, i);
    }
  }

  lemma CharAbsentNotContained(s: string, c: char)
    requires c !in s
    ensures !Contains(s, [c])
  {
    forall i | 0 <= i <= |s| ensures !OccursAt(s, [c], i) {
      if i + 1 <= |s| { assert s[i..i + 1] == [s[i]]; }
    }
  }

  /** Text that already has no fence, no line break and no surrounding
      whitespace passes through the cleanup unchanged. */
  lemma CleanPassesThrough(s: string)
    requires !Contains(s, Fence)
    requires '\n' !in s && '\r' !in s
    requires Trimmed(s)
    ensures CleanGeneratedSql(s) == s
  {
    FenceAbsentSqlFenceAbsent(s);
    ReplaceAbsent(s, SqlFence, "");
    ReplaceAbsent(s, Fence, "");
    CharAbsentNotContained(s, '\n');
    CharAbsentNotContained(s, '\r');
    assert "\n" == ['\n'] && "\r" == ['\r'];
    ReplaceAbsent(s, "\n", " ");
    ReplaceAbsent(s, "\r", " ");
    StripTrimmed(s);
  }

  /** Cleaning already-cleaned SQL changes nothing. */
  lemma CleanIdempotent(raw: string)
    ensures CleanGeneratedSql(CleanGeneratedSql(raw)) == CleanGeneratedSql(raw)
  {
    CleanPassesThrough(CleanGeneratedSql(raw));
  }

  // ---------------------------------------------------------------------------
  // Fenced replies

  /** A trailing "```" after backtick-free text is all that fence removal takes out. */
  lemma {:induction false} RemovalDropsTrailingFence(x: string)
    requires '`' !in x
    ensures Replace(x + Fence, Fence, "") == x
    decreases |x|
  {
    var s := x + Fence;
    if x == [] {
      assert s[..3] == Fence && s[3..] == [];
    } else {
      assert s[0] == x[0];
      assert s[..3] != Fence by { assert s[..3][0] == x[0]; }
      assert s[1..] == x[1..] + Fence;
      RemovalDropsTrailingFence(x[1..]);
    }
  }

  /** In a reply wrapped in fences around backtick-free text, "```sql" can only
      occur at the very start. */
  lemma SqlTagOnlyAtStart(x: string, i: int)
    requires '`' !in x
    requires OccursAt(Fence + x + Fence, SqlFence, i)
    ensures i == 0 && |x| >= 3 && x[..3] == "sql"
  {
    var s := Fence + x + Fence;
    assert forall k | 3 <= k < 3 + |x| :: s[k] == x[k - 3];
    assert s[i..i + 6] == SqlFence;
    assert s[i] == '`' && s[i + 1] == '`' && s[i + 2] == '`' && s[i + 3] == 's' by {
      assert s[i..i + 6][0] == s[i] && s[i..i + 6][1] == s[i + 1];
      assert s[i..i + 6][2] == s[i + 2] && s[i..i + 6][3] == s[i + 3];
    }
    assert i == 0;
    assert s[3] == 's' && s[4] == 'q' && s[5] == 'l' by {
      assert s[..6][3] == s[3] && s[..6][4] == s[4] && s[..6][5] == s[5];
    }
    assert x[..3] == [x[0], x[1], x[2]];
  }

  lemma RemoveFencesSqlTagged(x: string)
    requires '`' !in x && |x| >= 3 && x[..3] == "sql"
    ensures RemoveFences(Fence + x + Fence) == x[3..]
  {
    var s := Fence + x + Fence;
    assert s[..6] == SqlFence by { assert s[..6] == Fence + x[..3]; }
    var rest := x[3..] + Fence;
    assert s[6..] == rest;
    if Contains(rest, SqlFence) {
      var j :| 0 <= j <= |rest| && OccursAt(rest, SqlFence, j);
      assert s[6 + j..6 + j + 6] == rest[j..j + 6];
      SqlTagOnlyAtStart(x, 6 + j);
    }
    ReplaceAbsent(rest, SqlFence, "");
    assert Replace(s, SqlFence, "") == rest;
    assert '`' !in x[3..] by {
      forall k | 0 <= k < |x| - 3 ensures x[3..][k] != '`' { assert x[3..][k] == x[k + 3]; }
    }
    RemovalDropsTrailingFence(x[3..]);
  }

  lemma RemoveFencesOtherwise(x: string)
    requires '`' !in x && !(|x| >= 3 && x[..3] == "sql")
    ensures RemoveFences(Fence + x + Fence) == x
  {
    var s := Fence + x + Fence;
    if Contains(s, SqlFence) {
      var j :| 0 <= j <= |s| && OccursAt(s, SqlFence, j);
      SqlTagOnlyAtStart(x, j);
    }
    ReplaceAbsent(s, SqlFence, "");
    assert s[..3] == Fence && s[3..] == x + Fence;
    assert Replace(s, Fence, "") == Replace(x + Fence, Fence, "");
    RemovalDropsTrailingFence(x);
  }

  /** A reply that is backtick-free text between two fences, the text starting
      with "sql", cleans down to the rest of the text with line breaks spaced
      out and whitespace stripped. */
  lemma CleanSqlFencedReply(x: string)
    requires '`' !in x && |x| >= 3 && x[..3] == "sql"
    ensures CleanGeneratedSql(Fence + x + Fence) == Strip(SpaceEachLineBreak(x[3..]))
  {
    CleanupRules(Fence + x + Fence);
    RemoveFencesSqlTagged(x);
  }

  /** A reply that is backtick-free text between two fences, the text not
      starting with "sql", keeps all of that text, any language tag included. */
  lemma CleanOtherFencedReply(x: string)
    requires '`' !in x && !(|x| >= 3 && x[..3] == "sql")
    ensures CleanGeneratedSql(Fence + x + Fence) == Strip(SpaceEachLineBreak(x))
  {
    CleanupRules(Fence + x + Fence);
    RemoveFencesOtherwise(x);
  }

  // ---------------------------------------------------------------------------
  // Worked examples
  //
  // Each example takes the reply text as a parameter pinned by its `requires`
  // rather than writing the literal into the call: with a literal argument the
  // verifier unfolds `Replace` on it without bound.

  /** A fenced reply with CRLF line ends: the fences go, each "\r\n" becomes two
      spaces, and the spaces left at the ends are stripped. */
  lemma CleanFencedCrlf(x: string)
    requires x == "sql\r\nSELECT 1\r\n"
    ensures CleanGeneratedSql(Fence + x + Fence) == "SELECT 1"
  {
    assert Strip(SpaceEachLineBreak(x[3..])) == "SELECT 1" by {
      assert x[3..] == "\r\nSELECT 1\r\n";
      assert SpaceEachLineBreak(x[3..]) == "  " + "SELECT 1" + "  ";
      StripPadded("  ", "SELECT 1", "  ");
    }
    assert CleanGeneratedSql(Fence + x + Fence) == Strip(SpaceEachLineBreak(x[3..])) by {
      assert x[..3] == "sql";
      CleanSqlFencedReply(x);
    }
  }

  /** A fence tagged "postgresql" leaves the tag behind. */
  lemma CleanOtherTagLeavesTag(x: string)
    requires x == "postgresql\nSELECT 1\n"
    ensures CleanGeneratedSql(Fence + x + Fence) == "postgresql SELECT 1"
  {
    assert Strip(SpaceEachLineBreak(x)) == "postgresql SELECT 1" by {
      assert SpaceEachLineBreak(x) == "" + "postgresql SELECT 1" + " ";
      StripPadded("", "postgresql SELECT 1", " ");
    }
    assert CleanGeneratedSql(Fence + x + Fence) == Strip(SpaceEachLineBreak(x)) by {
      assert x[..3] == "pos";
      CleanOtherFencedReply(x);
    }
  }

  /** A fence tagged "sqlite" loses only the three letters "sql". */
  lemma CleanSqlPrefixedTagLeavesRest(x: string)
    requires x == "sqlite\nSELECT 1\n"
    ensures CleanGeneratedSql(Fence + x + Fence) == "ite SELECT 1"
  {
    assert Strip(SpaceEachLineBreak(x[3..])) == "ite SELECT 1" by {
      assert x[3..] == "ite\nSELECT 1\n";
      assert SpaceEachLineBreak(x[3..]) == "" + "ite SELECT 1" + " ";
      StripPadded("", "ite SELECT 1", " ");
    }
    assert CleanGeneratedSql(Fence + x + Fence) == Strip(SpaceEachLineBreak(x[3..])) by {
      assert x[..3] == "sql";
      CleanSqlFencedReply(x);
    }
  }
}
