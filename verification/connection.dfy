/** Choosing the async database driver from the configured URL. */
module Connection {
  import Text

  const DefaultDatabaseUrl: string := "sqlite+aiosqlite:///pause.db"

  /** Replacing everywhere skips a prefix in which no occurrence starts. */
  lemma {:induction false} ReplaceAllSkip(a: string, t: string, pat: string, rep: string)
    requires |pat| > 0
    requires forall i :: 0 <= i < |a| ==> !Text.OccursAt(a + t, pat, i)
    ensures Text.ReplaceAll(a + t, pat, rep) == a + Text.ReplaceAll(t, pat, rep)
    decreases |a|
  {
    if |a| == 0 {
      assert a + t == t;
    } else {
      var s := a + t;
      var s1 := a[1..] + t;
      assert s[1..] == s1;
      forall i | 0 <= i < |a[1..]|
        ensures !Text.OccursAt(s1, pat, i)
      {
        OccursShift(s, pat, i);
      }
      ReplaceAllSkip(a[1..], t, pat, rep);
      ReplaceAllStep(s, pat, rep);
      var rest := Text.ReplaceAll(t, pat, rep);
      assert Text.ReplaceAll(s1, pat, rep) == a[1..] + rest;
      assert [s[0]] + (a[1..] + rest) == ([s[0]] + a[1..]) + rest;
      assert [s[0]] + a[1..] == a;
    }
  }

  /** An occurrence in the tail is an occurrence one place later. */
  lemma OccursShift(s: string, pat: string, i: nat)
    requires |s| > 0
    ensures Text.OccursAt(s[1..], pat, i) <==> Text.OccursAt(s, pat, i + 1)
  {
    if i + |pat| <= |s| - 1 {
      assert s[1..][i..i + |pat|] == s[i + 1..i + 1 + |pat|];
    }
  }

  /** Without an occurrence at the front, the first character is kept. */
  lemma ReplaceAllStep(s: string, pat: string, rep: string)
    requires |pat| > 0 && |s| > 0 && !Text.OccursAt(s, pat, 0)
    ensures Text.ReplaceAll(s, pat, rep) == [s[0]] + Text.ReplaceAll(s[1..], pat, rep)
  {
    if |s| < |pat| {
      assert forall i :: 0 <= i < |s| ==> !Text.OccursAt(s, pat, i);
      assert forall i :: 0 <= i < |s| - 1 ==> !Text.OccursAt(s[1..], pat, i);
      assert [s[0]] + s[1..] == s;
    }
  }

  /** An occurrence at the front is replaced and the scan resumes after it. */
  lemma ReplaceAllHit(t: string, pat: string, rep: string)
    requires |pat| > 0
    ensures Text.ReplaceAll(pat + t, pat, rep) == rep + Text.ReplaceAll(t, pat, rep)
  {
    assert (pat + t)[..|pat|] == pat;
    assert (pat + t)[|pat|..] == t;
  }

  /** `init_db`'s rewrite as written: a URL starting with `sqlite` has every
      `sqlite://` replaced, and the two Postgres schemes likewise. */
  function RewriteUrl(url: string): (r: string)
    ensures (!Text.StartsWith(url, "sqlite") && !Text.StartsWith(url, "postgres://")
             && !Text.StartsWith(url, "postgresql://")) ==> r == url
    ensures (Text.StartsWith(url, "sqlite")
             && forall i :: 0 <= i < |url| ==> !Text.OccursAt(url, "sqlite://", i)) ==> r == url
  {
    if Text.StartsWith(url, "sqlite") then Text.ReplaceAll(url, "sqlite://", "sqlite+aiosqlite://")
    else if Text.StartsWith(url, "postgres://") then Text.ReplaceAll(url, "postgres://", "postgresql+asyncpg://")
    else if Text.StartsWith(url, "postgresql://") then Text.ReplaceAll(url, "postgresql://", "postgresql+asyncpg://")
    else url
  }

  /** The default URL, cut before the `sqlite://` inside `aiosqlite://`. */
  lemma DefaultUrlParts()
    ensures DefaultDatabaseUrl == "sqlite+aio" + ("sqlite://" + "/pause.db")
    ensures DefaultDatabaseUrl[..16] == "sqlite+aiosqlite"
  {
  }

  /** No `sqlite://` starts in the first ten characters of the default:
      each would need a colon among its first sixteen. */
  lemma NoEarlyOccurrence()
    ensures forall i :: 0 <= i < 10 ==> !Text.OccursAt(DefaultDatabaseUrl, "sqlite://", i)
  {
    var s := DefaultDatabaseUrl;
    DefaultUrlParts();
    forall i | 0 <= i < 10
      ensures !Text.OccursAt(s, "sqlite://", i)
    {
      assert s[..16][i + 6] != ':';
      assert s[..16][i + 6] == s[i + 6];
    }
  }

  /** The default takes the `sqlite` branch of the rewrite. */
  lemma DefaultTakesSqliteBranch()
    ensures RewriteUrl(DefaultDatabaseUrl) == Text.ReplaceAll(DefaultDatabaseUrl, "sqlite://", "sqlite+aiosqlite://")
  {
    assert Text.StartsWith(DefaultDatabaseUrl, "sqlite");
  }

  /** The tail after the inner scheme holds no further occurrence. */
  lemma TailUnchanged()
    ensures Text.ReplaceAll("/pause.db", "sqlite://", "sqlite+aiosqlite://") == "/pause.db"
  {
  }

  /** The configured default already names the driver, yet the `sqlite://`
      inside `aiosqlite://` is replaced too, doubling the driver. */
  lemma DefaultUrlIsMangled()
    ensures RewriteUrl(DefaultDatabaseUrl) == "sqlite+aio" + "sqlite+aiosqlite://" + "/pause.db"
    ensures |RewriteUrl(DefaultDatabaseUrl)| == |DefaultDatabaseUrl| + 10
  {
    var a, pat, t, rep := "sqlite+aio", "sqlite://", "/pause.db", "sqlite+aiosqlite://";
    DefaultTakesSqliteBranch();
    DefaultUrlParts();
    NoEarlyOccurrence();
    ReplaceAllSkip(a, pat + t, pat, rep);
    ReplaceAllHit(t, pat, rep);
    TailUnchanged();
    assert a + (rep + t) == a + rep + t;
  }

  /** A plain SQLite URL is given the driver as intended. */
  lemma PlainSqliteUrlGetsDriver(path: string)
    requires forall i :: 0 <= i < |path| ==> !Text.OccursAt(path, "sqlite://", i)
    ensures RewriteUrl("sqlite://" + path) == "sqlite+aiosqlite://" + path
  {
    assert Text.StartsWith("sqlite://" + path, "sqlite");
    ReplaceAllHit(path, "sqlite://", "sqlite+aiosqlite://");
  }

  /** A Postgres URL of either spelling is given the asyncpg driver, as
      intended, when the scheme does not recur later in the URL. */
  lemma PostgresUrlsGetDriver(rest: string)
    requires forall i :: 0 <= i < |rest| ==> !Text.OccursAt(rest, "postgres://", i)
    requires forall i :: 0 <= i < |rest| ==> !Text.OccursAt(rest, "postgresql://", i)
    ensures RewriteUrl("postgres://" + rest) == "postgresql+asyncpg://" + rest
    ensures RewriteUrl("postgresql://" + rest) == "postgresql+asyncpg://" + rest
  {
    var u1, u2 := "postgres://" + rest, "postgresql://" + rest;
    assert Text.StartsWith(u1, "postgres://");
    assert Text.StartsWith(u2, "postgresql://");
    if Text.StartsWith(u1, "sqlite") {
      PrefixChar(u1, "sqlite", 0);
      PrefixChar(u1, "postgres://", 0);
    }
    if Text.StartsWith(u2, "sqlite") {
      PrefixChar(u2, "sqlite", 0);
      PrefixChar(u2, "postgresql://", 0);
    }
    if Text.StartsWith(u2, "postgres://") {
      PrefixChar(u2, "postgres://", 8);
      PrefixChar(u2, "postgresql://", 8);
    }
    ReplaceAllHit(rest, "postgres://", "postgresql+asyncpg://");
    ReplaceAllHit(rest, "postgresql://", "postgresql+asyncpg://");
  }

  /** A prefix fixes the characters it covers. */
  lemma PrefixChar(s: string, prefix: string, k: nat)
    requires Text.StartsWith(s, prefix) && k < |prefix|
    ensures s[k] == prefix[k]
  {
    assert s[..|prefix|][k] == s[k];
  }

  /** The three driverless schemes exclude one another. */
  lemma SchemesDiffer(url: string)
    ensures Text.StartsWith(url, "sqlite://") ==> !Text.StartsWith(url, "postgres://") && !Text.StartsWith(url, "postgresql://")
    ensures Text.StartsWith(url, "postgres://") ==> !Text.StartsWith(url, "postgresql://")
  {
    if Text.StartsWith(url, "sqlite://") {
      PrefixChar(url, "sqlite://", 0);
    }
    if Text.StartsWith(url, "postgres://") {
      PrefixChar(url, "postgres://", 0);
      PrefixChar(url, "postgres://", 8);
    }
    if Text.StartsWith(url, "postgresql://") {
      PrefixChar(url, "postgresql://", 0);
      PrefixChar(url, "postgresql://", 8);
    }
  }

  /** The corrected rewrite: only a driverless scheme at the front is
      replaced; everything after the scheme is kept. */
  function DriverUrl(url: string): (r: string)
    ensures Text.StartsWith(url, "sqlite://") ==> r == "sqlite+aiosqlite://" + url[9..]
    ensures Text.StartsWith(url, "postgres://") ==> r == "postgresql+asyncpg://" + url[11..]
    ensures Text.StartsWith(url, "postgresql://") ==> r == "postgresql+asyncpg://" + url[13..]
    ensures (!Text.StartsWith(url, "sqlite://") && !Text.StartsWith(url, "postgres://")
             && !Text.StartsWith(url, "postgresql://")) ==> r == url
  {
    SchemesDiffer(url);
    if Text.StartsWith(url, "sqlite://") then "sqlite+aiosqlite://" + url[9..]
    else if Text.StartsWith(url, "postgres://") then "postgresql+asyncpg://" + url[11..]
    else if Text.StartsWith(url, "postgresql://") then "postgresql+asyncpg://" + url[13..]
    else url
  }

  /** What the corrected rewrite returns never starts with a driverless
      scheme. */
  lemma DriverUrlHasDriver(url: string)
    ensures var r := DriverUrl(url);
      !Text.StartsWith(r, "sqlite://") && !Text.StartsWith(r, "postgres://") && !Text.StartsWith(r, "postgresql://")
  {
    var r := DriverUrl(url);
    SchemesDiffer(url);
    if Text.StartsWith(r, "sqlite://") {
      PrefixChar(r, "sqlite://", 6);
    }
    if Text.StartsWith(r, "postgres://") {
      PrefixChar(r, "postgres://", 8);
    }
    if Text.StartsWith(r, "postgresql://") {
      PrefixChar(r, "postgresql://", 10);
    }
  }

  /** Rewriting a rewritten URL changes nothing. */
  lemma DriverUrlIdempotent(url: string)
    ensures DriverUrl(DriverUrl(url)) == DriverUrl(url)
  {
    DriverUrlHasDriver(url);
  }

  /** The default URL, which already names its driver, is left alone. */
  lemma DriverUrlKeepsDefault()
    ensures DriverUrl(DefaultDatabaseUrl) == DefaultDatabaseUrl
  {
    assert DefaultDatabaseUrl[..9][6] == '+';
    assert DefaultDatabaseUrl[..11][0] == 's';
    assert DefaultDatabaseUrl[..13][0] == 's';
  }
}
