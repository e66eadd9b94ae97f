/** The CORS part of the application settings (backend/app/core/config.py). */
module Config {
  import opened PyStr

  const DefaultCorsOrigins: string := "http://localhost:3000,http://127.0.0.1:3000"

  /** The one settings field this model reads; the others are environment configuration. */
  datatype Settings = Settings(corsOrigins: string)

  function DefaultSettings(): Settings {
    Settings(DefaultCorsOrigins)
  }

  /**
   * `cors_origins_list`: one entry per comma-separated field, in order, each
   * stripped of surrounding whitespace; empty fields stay as "".
   */
  function CorsOriginsList(settings: Settings): (r: seq<string>)
    ensures |r| == multiset(settings.corsOrigins)[','] + 1
    ensures forall k :: 0 <= k < |r| ==> Trimmed(r[k]) && ',' !in r[k]
    ensures forall k :: 0 <= k < |r| ==>
      (r[k] == "" <==> AllSpace(Split(settings.corsOrigins, ',')[k]))
  {
    var fields := Split(settings.corsOrigins, ',');
    assert forall k :: 0 <= k < |fields| ==> ',' !in Strip(fields[k]) by {
      forall k | 0 <= k < |fields| ensures ',' !in Strip(fields[k]) {
        var b := StripBounds(fields[k]);
        assert forall c :: c in fields[k][b.0..b.1] ==> c in fields[k];
      }
    }
    seq(|fields|, k requires 0 <= k < |fields| => Strip(fields[k]))
  }

  /** Entry k is field k of the original string with its surrounding whitespace removed. */
  lemma CorsOriginsListFields(settings: Settings)
    ensures var fields := Split(settings.corsOrigins, ',');
      Join(fields, ",") == settings.corsOrigins
      && forall k :: 0 <= k < |fields| ==> CorsOriginsList(settings)[k] == Strip(fields[k])
  {
    JoinSplit(settings.corsOrigins, ',');
  }

  lemma {:induction false} SplitAtFirstSeparator(a: string, sep: char, b: string)
    requires sep !in a
    ensures Split(a + [sep] + b, sep) == [a] + Split(b, sep)
  {
    if a == [] {
      assert a + [sep] + b == [sep] + b;
      assert ([sep] + b)[1..] == b;
    } else {
      var s := a + [sep] + b;
      assert s[1..] == a[1..] + [sep] + b;
      SplitAtFirstSeparator(a[1..], sep, b);
      assert [a[0]] + a[1..] == a;
    }
  }

  /** Two comma-free, already trimmed origins separated by one comma give exactly those two entries. */
  lemma TwoOrigins(a: string, b: string)
    requires ',' !in a && ',' !in b && Trimmed(a) && Trimmed(b)
    ensures CorsOriginsList(Settings(a + [','] + b)) == [a, b]
  {
    SplitAtFirstSeparator(a, ',', b);
    SplitWithoutSeparator(b, ',');
    StripFixpoint(a);
    StripFixpoint(b);
  }

  /** The default setting yields the two local development origins. */
  lemma DefaultCorsOriginsList()
    ensures CorsOriginsList(DefaultSettings()) == ["http://localhost:3000", "http://127.0.0.1:3000"]
  {
    var a := "http://localhost:3000";
    var b := "http://127.0.0.1:3000";
    assert DefaultCorsOrigins == a + [','] + b;
    TwoOrigins(a, b);
  }
}
