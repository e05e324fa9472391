/** The application settings that the core reads: the comma-separated list of
    allowed CORS origins and the access-token lifetime, with their defaults. */
module Config {
  import opened PyStr

  const DEFAULT_CORS_ORIGINS: string := "http://localhost:3000,http://localhost:5173"

  /** One week, in minutes. */
  const DEFAULT_ACCESS_TOKEN_EXPIRE_MINUTES: int := 10080

  datatype Settings = Settings(corsOrigins: string, accessTokenExpireMinutes: int)
  {
    /** `cors_origins_list`: the comma-separated pieces of `corsOrigins`, in
        order, each stripped of surrounding whitespace. There is one entry more
        than there are commas, and no entry holds a comma or starts or ends
        with whitespace. */
    function CorsOriginsList(): (origins: seq<string>)
      ensures |origins| == multiset(corsOrigins)[','] + 1 == |Split(corsOrigins, ',')|
      ensures forall i :: 0 <= i < |origins| ==> origins[i] == Strip(Split(corsOrigins, ',')[i])
      ensures forall i :: 0 <= i < |origins| ==> ',' !in origins[i]
      ensures forall i :: 0 <= i < |origins| ==>
                origins[i] == [] || (!IsSpace(origins[i][0]) && !IsSpace(origins[i][|origins[i]| - 1]))
    {
      var pieces := Split(corsOrigins, ',');
      SplitCount(corsOrigins, ',');
      var origins := seq(|pieces|, i requires 0 <= i < |pieces| => Strip(pieces[i]));
      assert forall i :: 0 <= i < |origins| ==> ',' !in origins[i] by {
        forall i | 0 <= i < |origins| ensures ',' !in origins[i] {
          StripKeepsOut(pieces[i], ',');
        }
      }
      origins
    }
  }

  /** The settings as they are when the environment overrides nothing. */
  function DefaultSettings(): Settings
  {
    Settings(DEFAULT_CORS_ORIGINS, DEFAULT_ACCESS_TOKEN_EXPIRE_MINUTES)
  }

  /** A character that is absent from `s` is absent from `s.strip()`. */
  lemma StripKeepsOut(s: string, c: char)
    requires c !in s
    ensures c !in Strip(s)
  {
    var r := Strip(s);
    var k :| 0 <= k <= |s| - |r| && r == s[k..k + |r|] && AllSpace(s[..k]) && AllSpace(s[k + |r|..]);
  }

  /** Two origins joined by a comma, neither holding a comma nor starting or
      ending with whitespace, are listed back as exactly those two. */
  lemma TwoOrigins(a: string, b: string, minutes: int)
    requires ',' !in a && ',' !in b
    requires a != [] && !IsSpace(a[0]) && !IsSpace(a[|a| - 1])
    requires b != [] && !IsSpace(b[0]) && !IsSpace(b[|b| - 1])
    ensures Settings(a + [','] + b, minutes).CorsOriginsList() == [a, b]
  {
    assert Join([a, b], ',') == a + [','] + b;
    SplitJoin([a, b], ',');
    assert TrimLeft(a) == a && TrimRight(a) == a;
    assert TrimLeft(b) == b && TrimRight(b) == b;
  }

  /** The default origins are the two local development servers. */
  lemma DefaultCorsOrigins()
    ensures DefaultSettings().CorsOriginsList() == ["http://localhost:3000", "http://localhost:5173"]
  {
    var a, b := "http://localhost:3000", "http://localhost:5173";
    assert DEFAULT_CORS_ORIGINS == a + [','] + b;
    TwoOrigins(a, b, DEFAULT_ACCESS_TOKEN_EXPIRE_MINUTES);
  }

  /** The default access-token lifetime of 10080 minutes is exactly one week. */
  lemma AccessTokenLifetimeIsOneWeek()
    ensures DefaultSettings().accessTokenExpireMinutes == 7 * 24 * 60
  {
  }
}
