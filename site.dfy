/**
 * The Site value object of databasetests/utils.py: one row of
 * `site_version.csv` plus the site-data root, and the path helpers that
 * mirror `cvcalc three`, `cvcalc eight` and `cvcalc three-eight`.
 */
module Sites {
  import opened Results
  import opened Text

  /** The default `site_data_dir` argument of `Site(...)` and of `SiteList(...)`. */
  const DefaultSiteDataRoot: string := "/etc/convio/site_data"

  datatype Site = Site(
    siteId: int,
    short: string,
    domain: string,
    version: string,
    siteDb: string,
    siteDataRoot: string)

  /** Neither `/` nor `"` occurs in the decimal form of an int. */
  lemma IntToStringCharAt(n: int, i: int)
    requires 0 <= i < |IntToString(n)|
    ensures IntToString(n)[i] != '/' && IntToString(n)[i] != '"'
  {
    var s := IntToString(n);
    if n < 0 && i > 0 {
      assert s[i] == s[1..][i - 1];
    }
  }

  /** `three()`: `str(site_id)[-3:]`. */
  function Three(site: Site): (r: string)
    ensures |r| == if |IntToString(site.siteId)| < 3 then |IntToString(site.siteId)| else 3
    ensures IntToString(site.siteId) == IntToString(site.siteId)[..|IntToString(site.siteId)| - |r|] + r
  {
    TakeLast(IntToString(site.siteId), 3)
  }

  /** `eight()`: `str(site_id).rjust(8, '0')`. */
  function Eight(site: Site): string {
    RJust(IntToString(site.siteId), 8, '0')
  }

  /** `three()` is non-empty, and neither its first nor its last character is `/`. */
  lemma ThreeEnds(site: Site)
    ensures |Three(site)| >= 1
    ensures Three(site)[0] != '/' && Three(site)[|Three(site)| - 1] != '/'
  {
    var s := IntToString(site.siteId);
    var three := Three(site);
    var k := |s| - |three|;
    assert three == s[k..];
    IntToStringCharAt(site.siteId, k);
    IntToStringCharAt(site.siteId, |s| - 1);
  }

  /** `eight()` is non-empty and does not start with `/`. */
  lemma EightStart(site: Site)
    ensures |Eight(site)| >= 1 && Eight(site)[0] != '/'
  {
    var s := IntToString(site.siteId);
    IntToStringCharAt(site.siteId, 0);
    assert Eight(site)[0] == '0' || Eight(site)[0] == s[0];
  }

  /** `three_eight()`: `os.path.join(three(), eight())`, which is always `three/eight`. */
  function ThreeEight(site: Site): (r: string)
    ensures r == Three(site) + "/" + Eight(site)
  {
    ThreeEnds(site);
    EightStart(site);
    PathJoin(Three(site), Eight(site))
  }

  /**
   * `site_data_dir()`: `os.path.join(site_data_root, three_eight())`; the
   * second part is never absolute, so it is always appended to the root.
   */
  function SiteDataDir(site: Site): (r: string)
    ensures site.siteDataRoot != [] && site.siteDataRoot[|site.siteDataRoot| - 1] != '/' ==>
              r == site.siteDataRoot + "/" + ThreeEight(site)
    ensures site.siteDataRoot == [] || site.siteDataRoot[|site.siteDataRoot| - 1] == '/' ==>
              r == site.siteDataRoot + ThreeEight(site)
  {
    ThreeEnds(site);
    var te := ThreeEight(site);
    assert te[0] == Three(site)[0];
    PathJoin(site.siteDataRoot, te)
  }

  /** A double quote, as a one-character string. */
  const Quote: string := ['"']

  /**
   * `__str__`: the public fields as a JSON-style object, e.g.
   * `{ "site_id": 3701, "short": "jdrf3", "domain": "d", "version": "v", "site_db": "db103tc" }`.
   */
  function SiteStr(site: Site): string {
    "{ " + Quote + "site_id" + Quote + ": " + IntToString(site.siteId) + ", "
    + Quote + "short" + Quote + ": " + Quote + site.short + Quote + ", "
    + Quote + "domain" + Quote + ": " + Quote + site.domain + Quote + ", "
    + Quote + "version" + Quote + ": " + Quote + site.version + Quote + ", "
    + Quote + "site_db" + Quote + ": " + Quote + site.siteDb + Quote + " }"
  }

  /** For a non-negative id, `three()` reads back as the id's last three decimal digits. */
  lemma ThreeIsLastDigits(site: Site)
    requires site.siteId >= 0
    ensures ParseInt(Three(site)) == Some(site.siteId % 1000)
  {
    var s := NatToString(site.siteId);
    assert s == IntToString(site.siteId);
    var t := Three(site);
    var k := |t|;
    assert t == s[|s| - k..];
    SuffixValue(s, k);
    NatToStringValue(site.siteId);
    ParseIntOfDigits(t);
    if k < 3 {
      assert k == |s|;
      DigitsValueBound(s);
      assert Pow10(k) <= 100 by {
        if k == 2 { assert Pow10(2) == 100; } else { assert Pow10(1) == 10; }
      }
      DivModUnique(site.siteId, Pow10(k), 0, site.siteId);
      DivModUnique(site.siteId, 1000, 0, site.siteId);
    } else {
      assert Pow10(3) == 1000;
    }
  }

  /**
   * For a non-negative id, `eight()` ends with `str(site_id)`, is exactly 8
   * characters while the id has at most 8 digits, and reads back as the id.
   */
  lemma EightIsPaddedId(site: Site)
    requires site.siteId >= 0
    ensures |Eight(site)| >= 8
    ensures site.siteId < 100000000 ==> |Eight(site)| == 8
    ensures Eight(site)[|Eight(site)| - |IntToString(site.siteId)|..] == IntToString(site.siteId)
    ensures ParseInt(Eight(site)) == Some(site.siteId)
  {
    var s := NatToString(site.siteId);
    assert s == IntToString(site.siteId);
    var e := Eight(site);
    var z := e[..|e| - |s|];
    assert e == z + s;
    ZeroPaddedValue(z, s);
    NatToStringValue(site.siteId);
    ParseIntOfDigits(e);
    if site.siteId < 100000000 {
      assert Pow10(8) == 100000000;
      NatToStringLength(site.siteId, 8);
    }
  }

  /** One `"key": "value"` entry of `__str__` and the text after it split at the quotes. */
  lemma SplitQuotedField(prefix: string, key: string, value: string, tail: string)
    requires '"' !in key && '"' !in value && '"' !in tail
    ensures Split(prefix + Quote + key + Quote + ": " + Quote + value + Quote + tail, '"') ==
      Split(prefix, '"') + [key, ": ", value, tail]
  {
    var q := '"';
    var a := prefix + Quote + key;
    var b := a + Quote + ": ";
    var c := b + Quote + value;
    SplitSnoc(prefix, key, q);
    SplitSnoc(a, ": ", q);
    SplitSnoc(b, value, q);
    SplitSnoc(c, tail, q);
  }

  /** The `__str__` template, with its five values already rendered, split at its quotes. */
  lemma SplitRendering(id: string, short: string, domain: string, version: string, siteDb: string)
    requires '"' !in id && '"' !in short && '"' !in domain && '"' !in version && '"' !in siteDb
    ensures Split("{ " + Quote + "site_id" + Quote + ": " + id + ", "
      + Quote + "short" + Quote + ": " + Quote + short + Quote + ", "
      + Quote + "domain" + Quote + ": " + Quote + domain + Quote + ", "
      + Quote + "version" + Quote + ": " + Quote + version + Quote + ", "
      + Quote + "site_db" + Quote + ": " + Quote + siteDb + Quote + " }", '"') ==
      ["{ ", "site_id", ": " + id + ", "]
      + ["short", ": ", short, ", "]
      + ["domain", ": ", domain, ", "]
      + ["version", ": ", version, ", "]
      + ["site_db", ": ", siteDb, " }"]
  {
    var q := '"';
    var idPart := ": " + id + ", ";
    var s1 := "{ " + Quote + "site_id";
    var s2 := s1 + Quote + ": " + id + ", ";
    var s6 := s2 + Quote + "short" + Quote + ": " + Quote + short + Quote + ", ";
    var s10 := s6 + Quote + "domain" + Quote + ": " + Quote + domain + Quote + ", ";
    var s14 := s10 + Quote + "version" + Quote + ": " + Quote + version + Quote + ", ";
    SplitWithoutSep("{ ", q);
    SplitSnoc("{ ", "site_id", q);
    assert s2 == s1 + [q] + idPart;
    SplitSnoc(s1, idPart, q);
    assert Split(s2, q) == ["{ ", "site_id", idPart];
    SplitQuotedField(s2, "short", short, ", ");
    SplitQuotedField(s6, "domain", domain, ", ");
    SplitQuotedField(s10, "version", version, ", ");
    SplitQuotedField(s14, "site_db", siteDb, " }");
  }

  /** The decimal form of an int holds no double quote. */
  lemma NoQuoteInId(n: int)
    ensures '"' !in IntToString(n)
  {
    var id := IntToString(n);
    forall i | 0 <= i < |id| ensures id[i] != '"' {
      IntToStringCharAt(n, i);
    }
  }

  /**
   * `__str__` can be read back: when no text field holds a double quote,
   * splitting the rendering at its quotes gives the key names and the
   * field values in order.
   */
  lemma SiteStrFields(site: Site)
    requires '"' !in site.short && '"' !in site.domain && '"' !in site.version && '"' !in site.siteDb
    ensures Split(SiteStr(site), '"') ==
      ["{ ", "site_id", ": " + IntToString(site.siteId) + ", "]
      + ["short", ": ", site.short, ", "]
      + ["domain", ": ", site.domain, ", "]
      + ["version", ": ", site.version, ", "]
      + ["site_db", ": ", site.siteDb, " }"]
  {
    NoQuoteInId(site.siteId);
    SplitRendering(IntToString(site.siteId), site.short, site.domain, site.version, site.siteDb);
  }

  /**
   * The text between `"site_id": ` and the next comma of `__str__` parses
   * back as the site id.
   */
  lemma SiteStrId(site: Site)
    requires '"' !in site.short && '"' !in site.domain && '"' !in site.version && '"' !in site.siteDb
    ensures |Split(SiteStr(site), '"')| == 19
    ensures var idText := Split(SiteStr(site), '"')[2];
      |idText| >= 4 && ParseInt(idText[2..|idText| - 2]) == Some(site.siteId)
  {
    SiteStrFields(site);
    var id := IntToString(site.siteId);
    var idPart := ": " + id + ", ";
    assert Split(SiteStr(site), '"')[2] == idPart;
    assert idPart[2..|idPart| - 2] == id;
    ParseIntOfIntToString(site.siteId);
  }

  /** The decimal form of 1234. */
  lemma DecimalOf1234()
    ensures IntToString(1234) == "1234"
  {
    assert NatToString(1) == [DigitChar(1)];
    assert NatToString(12) == NatToString(1) + [DigitChar(2)];
    assert NatToString(123) == NatToString(12) + [DigitChar(3)];
    assert NatToString(1234) == NatToString(123) + [DigitChar(4)];
  }

  /** The documented example: site 1234 lives under `234/00001234`. */
  lemma Example1234(site: Site)
    requires site.siteId == 1234
    ensures Three(site) == "234"
    ensures Eight(site) == "00001234"
    ensures ThreeEight(site) == "234/00001234"
    ensures site.siteDataRoot == DefaultSiteDataRoot ==>
              SiteDataDir(site) == "/etc/convio/site_data/234/00001234"
    ensures site.siteDataRoot == "/data" ==> SiteDataDir(site) == "/data/234/00001234"
  {
    DecimalOf1234();
    var s := IntToString(1234);
    assert Three(site) == s[1..];
    var pad := seq(4, _ => '0');
    assert pad == "0000";
    assert Eight(site) == pad + s;
  }
}
