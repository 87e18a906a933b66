/**
 The CORS origin list of app/config.py: the comma-separated `ALLOWED_ORIGINS` setting split on
 commas, each piece stripped. Empty pieces are kept, so an empty setting or a trailing comma
 yields an empty origin.
 */
module Config {
  import opened Text

  /** The default value of `ALLOWED_ORIGINS`. */
  const DefaultAllowedOrigins := LocalOrigin3001 + "," + LocalOrigin3000

  const LocalOrigin3001 := "http://localhost:3001"
  const LocalOrigin3000 := "http://localhost:3000"

  /** `[origin.strip() for origin in ALLOWED_ORIGINS.split(",")]`. */
  function AllowedOriginsList(origins: string): (r: seq<string>)
    ensures |r| == CountChar(origins, ',') + 1
    ensures forall i :: 0 <= i < |r| ==> Trimmed(r[i]) && ',' !in r[i]
    ensures |r| == |Split(origins, ',')|
    ensures forall i :: 0 <= i < |r| ==> r[i] == Strip(Split(origins, ',')[i])
  {
    var pieces := Split(origins, ',');
    SplitJoin(origins, ',');
    var r := seq(|pieces|, i requires 0 <= i < |pieces| => Strip(pieces[i]));
    assert forall i :: 0 <= i < |r| ==> ',' !in r[i] by {
      forall i | 0 <= i < |r| ensures ',' !in r[i] {
        StripInside(pieces[i], ',');
      }
    }
    r
  }

  /** Stripping only removes characters, so it cannot introduce one. */
  lemma StripInside(s: string, c: char)
    requires c !in s
    ensures c !in Strip(s)
  {
    var l := LStrip(s);
    assert l == s[|s| - |l|..];
    var r := RStrip(l);
    assert r == l[..|r|];
  }

  /** Origins that are already trimmed and comma-free survive a join with commas unchanged. */
  lemma OriginsRoundTrip(origins: seq<string>)
    requires |origins| >= 1
    requires forall i :: 0 <= i < |origins| ==> Trimmed(origins[i]) && ',' !in origins[i]
    ensures AllowedOriginsList(Join(origins, ",")) == origins
  {
    JoinSplit(origins, ',');
    var r := AllowedOriginsList(Join(origins, [',']));
    assert |r| == |origins|;
    forall i | 0 <= i < |origins| ensures r[i] == origins[i] {
      StripTrimmed(origins[i]);
    }
  }

  /** The default setting allows the two local development origins, in this order. */
  lemma DefaultOrigins()
    ensures AllowedOriginsList(DefaultAllowedOrigins) == ["http://localhost:3001", "http://localhost:3000"]
  {
    LocalOriginClean(LocalOrigin3001);
    LocalOriginClean(LocalOrigin3000);
    assert Join([LocalOrigin3001, LocalOrigin3000], ",") == DefaultAllowedOrigins;
    OriginsRoundTrip([LocalOrigin3001, LocalOrigin3000]);
  }

  lemma LocalOriginClean(a: string)
    requires a == LocalOrigin3001 || a == LocalOrigin3000
    ensures Trimmed(a) && ',' !in a
  {
  }

  /** A trailing comma adds an empty origin rather than being ignored. */
  lemma TrailingCommaAddsEmptyOrigin(origin: string)
    requires Trimmed(origin) && ',' !in origin
    ensures AllowedOriginsList(origin + ",") == [origin, ""]
  {
    assert Join([origin, ""], ",") == origin + ",";
    OriginsRoundTrip([origin, ""]);
  }

  /** An empty setting gives one empty origin, not an empty list. */
  lemma EmptySettingGivesEmptyOrigin()
    ensures AllowedOriginsList("") == [""]
  {
    OriginsRoundTrip([""]);
  }
}
