/** The backend settings' CORS origin list (backend/app/core/config.py):
    `[origin.strip() for origin in cors_origins.split(",")]`. */
module Config {
  import opened Text

  const DefaultCorsOrigins: string := "http://localhost:3000,http://127.0.0.1:3000"

  /** `cors_origins_list`: one entry per comma-separated piece, in order, each piece
      with its surrounding whitespace stripped; empty pieces stay as empty strings,
      and no entry holds a comma. */
  function CorsOriginsList(corsOrigins: string): (origins: seq<string>)
    ensures |origins| == Count(corsOrigins, ',') + 1
    ensures forall i :: 0 <= i < |origins| ==> origins[i] == Trim(Split(corsOrigins, ',')[i])
    ensures forall i :: 0 <= i < |origins| ==> ',' !in origins[i]
  {
    var pieces := Split(corsOrigins, ',');
    var origins := seq(|pieces|, i requires 0 <= i < |pieces| => Trim(pieces[i]));
    forall i | 0 <= i < |origins|
      ensures ',' !in origins[i]
    {
      TrimHasNo(pieces[i], ',');
    }
    origins
  }

  /** Stripping never brings in a character the piece did not have. */
  lemma TrimHasNo(s: string, c: char)
    requires c !in s
    ensures c !in Trim(s)
  {
    TrimSpec(s);
    var k :| OccursAt(s, Trim(s), k);
    forall j | 0 <= j < |Trim(s)|
      ensures Trim(s)[j] != c
    {
      assert Trim(s)[j] == s[k + j];
    }
  }

  /** An origin with no whitespace at either end is left as it is by stripping. */
  predicate Unpadded(origin: string) {
    origin == [] || (!IsSpace(origin[0]) && !IsSpace(origin[|origin| - 1]))
  }

  lemma TrimUnpadded(origin: string)
    requires Unpadded(origin)
    ensures Trim(origin) == origin
  {
    if origin != [] {
      assert LeadingSpaces(origin) == 0;
      assert TrailingStart(origin) == |origin|;
    }
  }

  /** Writing a list of comma-free, unpadded origins joined by commas and parsing it
      back gives the same list. */
  lemma CorsOriginsRoundTrip(origins: seq<string>)
    requires |origins| >= 1
    requires forall i :: 0 <= i < |origins| ==> ',' !in origins[i] && Unpadded(origins[i])
    ensures CorsOriginsList(Join(origins, ',')) == origins
  {
    SplitJoin(origins, ',');
    var parsed := CorsOriginsList(Join(origins, ','));
    forall i | 0 <= i < |origins|
      ensures parsed[i] == origins[i]
    {
      TrimUnpadded(origins[i]);
    }
  }

  /** The default setting allows the two local development origins. */
  lemma DefaultCorsOriginsList()
    ensures CorsOriginsList(DefaultCorsOrigins) == ["http://localhost:3000", "http://127.0.0.1:3000"]
  {
    var origins := ["http://localhost:3000", "http://127.0.0.1:3000"];
    assert Join(origins, ',') == DefaultCorsOrigins by {
      assert origins[1..] == ["http://127.0.0.1:3000"];
    }
    CorsOriginsRoundTrip(origins);
  }
}
