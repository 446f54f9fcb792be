/**
 * The `DATABASE_URL` check done when the backend's database module loads
 * (backend/app/core/database.py): Heroku-style "postgres://" URLs are
 * rewritten to the "postgresql://" scheme SQLAlchemy expects, and a missing
 * URL stops start-up. The environment variable is a parameter.
 */
module DatabaseUrl {
  import opened Wrappers
  import opened Text

  const LegacyScheme := "postgres://"
  const Scheme := "postgresql://"
  const NotSetMessage := "\U{1F6D1} DATABASE_URL not set"

  /** `pat` occurs in `s` at index `i`. */
  predicate OccursAt(s: string, pat: string, i: nat) {
    i + |pat| <= |s| && s[i..i + |pat|] == pat
  }

  /** Python's `s.replace(pat, rep, 1)`: the first occurrence of `pat`, if any, becomes `rep`. */
  function ReplaceFirst(s: string, pat: string, rep: string): string
    decreases |s|
  {
    if |s| < |pat| then s
    else if s[..|pat|] == pat then rep + s[|pat|..]
    else [s[0]] + ReplaceFirst(s[1..], pat, rep)
  }

  /**
   * Replacing the first occurrence at index `i` keeps what precedes it and
   * everything after it, later occurrences included; a string without an
   * occurrence is returned unchanged.
   */
  lemma {:induction false} ReplaceFirstFacts(s: string, pat: string, rep: string, i: nat)
    requires OccursAt(s, pat, i) && forall j | 0 <= j < i :: !OccursAt(s, pat, j)
    ensures ReplaceFirst(s, pat, rep) == s[..i] + rep + s[i + |pat|..]
    decreases i
  {
    if i == 0 {
      assert s[..|pat|] == s[0..|pat|];
    } else {
      var t := s[1..];
      ReplaceFirstSkips(s, pat, rep);
      assert OccursAt(t, pat, i - 1) by {
        assert t[i - 1..i - 1 + |pat|] == s[i..i + |pat|];
      }
      forall j | 0 <= j < i - 1 ensures !OccursAt(t, pat, j) {
        ShiftedOccurrence(s, pat, j);
      }
      ReplaceFirstFacts(t, pat, rep, i - 1);
      assert s[..i] == [s[0]] + t[..i - 1];
      assert t[i - 1 + |pat|..] == s[i + |pat|..];
    }
  }

  /** Without an occurrence at the front, the first character is kept and the search moves on. */
  lemma ReplaceFirstSkips(s: string, pat: string, rep: string)
    requires 0 < |s| && |pat| <= |s| && !OccursAt(s, pat, 0)
    ensures ReplaceFirst(s, pat, rep) == [s[0]] + ReplaceFirst(s[1..], pat, rep)
  {
    assert s[..|pat|] == s[0..|pat|];
  }

  /** An occurrence in `s[1..]` at `j` is an occurrence in `s` at `j + 1`. */
  lemma ShiftedOccurrence(s: string, pat: string, j: nat)
    requires |s| > 0
    ensures OccursAt(s[1..], pat, j) <==> OccursAt(s, pat, j + 1)
  {
    if j + 1 + |pat| <= |s| {
      assert s[1..][j..j + |pat|] == s[j + 1..j + 1 + |pat|];
    }
  }

  /** Without any occurrence of `pat`, the string is unchanged. */
  lemma {:induction false} ReplaceFirstWithoutOccurrence(s: string, pat: string, rep: string)
    requires forall j | 0 <= j <= |s| :: !OccursAt(s, pat, j)
    ensures ReplaceFirst(s, pat, rep) == s
    decreases |s|
  {
    if |s| >= |pat| {
      assert !OccursAt(s, pat, 0);
      ReplaceFirstSkips(s, pat, rep);
      forall j | 0 <= j <= |s[1..]| ensures !OccursAt(s[1..], pat, j) {
        ShiftedOccurrence(s, pat, j);
      }
      ReplaceFirstWithoutOccurrence(s[1..], pat, rep);
    }
  }

  /** Lines 7-11: read, rewrite a leading legacy scheme, refuse an unset or empty URL. */
  function ResolveDatabaseUrl(env: Option<string>): Result<string, string> {
    var url := if env.Some? && env.value != "" && StartsWith(env.value, LegacyScheme)
               then Some(ReplaceFirst(env.value, LegacyScheme, Scheme))
               else env;
    if url.None? || url.value == "" then Err(NotSetMessage) else Ok(url.value)
  }

  /**
   * A URL with the legacy scheme gets "postgresql://" followed by the same
   * remainder, a later "postgres://" inside it included; any other non-empty
   * URL passes unchanged; an unset or empty one is refused.
   */
  lemma ResolveFacts(env: Option<string>)
    ensures env.None? || env == Some("") <==> ResolveDatabaseUrl(env) == Err(NotSetMessage)
    ensures env.Some? && StartsWith(env.value, LegacyScheme) ==>
      ResolveDatabaseUrl(env) == Ok(Scheme + env.value[|LegacyScheme|..])
    ensures env.Some? && env.value != "" && !StartsWith(env.value, LegacyScheme) ==>
      ResolveDatabaseUrl(env) == Ok(env.value)
  {
    if env.Some? && StartsWith(env.value, LegacyScheme) {
      assert OccursAt(env.value, LegacyScheme, 0);
      ReplaceFirstFacts(env.value, LegacyScheme, Scheme, 0);
    }
  }

  /** A URL already in the "postgresql://" scheme is not a legacy one, so it is left alone. */
  lemma CurrentSchemeUnchanged(url: string)
    requires StartsWith(url, Scheme)
    ensures ResolveDatabaseUrl(Some(url)) == Ok(url)
  {
    assert url[8] == Scheme[8] == 'q';
    assert LegacyScheme[8] == ':';
  }

  /** Resolving an accepted URL again changes nothing. */
  lemma ResolveIdempotent(env: Option<string>)
    requires ResolveDatabaseUrl(env).Ok?
    ensures ResolveDatabaseUrl(Some(ResolveDatabaseUrl(env).value)) == ResolveDatabaseUrl(env)
  {
    ResolveFacts(env);
    var url := ResolveDatabaseUrl(env).value;
    if StartsWith(env.value, LegacyScheme) {
      assert StartsWith(url, Scheme) by {
        assert url[..|Scheme|] == Scheme;
      }
      CurrentSchemeUnchanged(url);
    } else {
      ResolveFacts(Some(url));
    }
  }
}
