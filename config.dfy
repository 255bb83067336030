/** The auth service's settings: token defaults and the CORS origin list. */
module Config {
  import opened Text

  const DefaultCorsOrigins: string := "http://localhost:3000,http://localhost:8080"

  /** `Settings`. The secret key has no default and must be supplied. */
  datatype Settings = Settings(
    jwtSecretKey: string,
    jwtAlgorithm: string := "HS256",
    accessTokenExpireMinutes: int := 30,
    refreshTokenExpireDays: int := 7,
    corsOrigins: string := DefaultCorsOrigins)

  /** `cors_origins_list`: the comma-separated segments, each stripped of surrounding whitespace. */
  function CorsOriginsList(settings: Settings): (r: seq<string>)
    ensures |r| == |Split(settings.corsOrigins, ',')| == CountChar(settings.corsOrigins, ',') + 1
    ensures forall i :: 0 <= i < |r| ==> r[i] == Strip(Split(settings.corsOrigins, ',')[i])
    ensures forall i :: 0 <= i < |r| ==> ',' !in r[i]
    ensures forall i :: 0 <= i < |r| ==> r[i] == [] || (!IsSpace(r[i][0]) && !IsSpace(r[i][|r[i]| - 1]))
  {
    var parts := Split(settings.corsOrigins, ',');
    var r := seq(|parts|, i requires 0 <= i < |parts| => Strip(parts[i]));
    forall i | 0 <= i < |r|
      ensures ',' !in r[i]
    {
      StripKeepsOut(parts[i], ',');
    }
    r
  }

  // ------------------------------------------------------------------ lemmas

  /** The token defaults: 30 minutes for an access token, 7 days for a refresh token, signed with HS256. */
  lemma Defaults(key: string)
    ensures Settings(key).accessTokenExpireMinutes == 30 && Settings(key).refreshTokenExpireDays == 7
    ensures Settings(key).jwtAlgorithm == "HS256"
  {
  }

  /** Origins that carry no commas and no surrounding whitespace come back exactly from their comma-joined setting. */
  lemma CorsRoundTrip(origins: seq<string>, key: string)
    requires |origins| > 0
    requires forall i :: 0 <= i < |origins| ==> ',' !in origins[i]
    requires forall i :: 0 <= i < |origins| ==>
      origins[i] == [] || (!IsSpace(origins[i][0]) && !IsSpace(origins[i][|origins[i]| - 1]))
    ensures CorsOriginsList(Settings(key, corsOrigins := JoinWith(origins, ','))) == origins
  {
    SplitJoinWith(origins, ',');
    var r := CorsOriginsList(Settings(key, corsOrigins := JoinWith(origins, ',')));
    forall i | 0 <= i < |origins|
      ensures r[i] == origins[i]
    {
      StripOfUnpadded(origins[i]);
    }
  }

  /** Two unpadded origins joined by a comma come back as the two of them. */
  lemma TwoOrigins(a: string, b: string, key: string)
    requires ',' !in a && ',' !in b && |a| > 0 && |b| > 0
    requires !IsSpace(a[0]) && !IsSpace(a[|a| - 1]) && !IsSpace(b[0]) && !IsSpace(b[|b| - 1])
    ensures CorsOriginsList(Settings(key, corsOrigins := a + "," + b)) == [a, b]
  {
    var origins := [a, b];
    assert JoinWith(origins, ',') == a + "," + b by {
      assert origins[1..] == [b];
    }
    CorsRoundTrip(origins, key);
  }

  /** The default setting gives the two local development origins. */
  lemma DefaultCorsList(key: string)
    ensures CorsOriginsList(Settings(key)) == ["http://localhost:3000", "http://localhost:8080"]
  {
    var a, b := "http://localhost:3000", "http://localhost:8080";
    assert Settings(key) == Settings(key, corsOrigins := a + "," + b);
    TwoOrigins(a, b, key);
  }

  /** An empty setting gives one empty origin, not an empty list. */
  lemma EmptyCorsList(key: string)
    ensures CorsOriginsList(Settings(key, corsOrigins := "")) == [""]
  {
    SplitNoSeparator("", ',');
  }
}
