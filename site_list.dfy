/**
 * SiteList (databasetests/utils.py): the sites of a `site_version.csv`
 * file, or the subset of them named by short names or by site ids, held as
 * an ordered list plus two dictionaries, one keyed by short name and one by
 * site id, and a cursor that walks the list and starts over once exhausted.
 *
 * Files are the lines `readlines()` returns; opening them is not modelled.
 */
module SiteLists {
  import opened Results
  import opened Text
  import opened Errors
  import opened Sites

  /** The rows a load keeps: every row, or those whose short name (site id) is in the inclusion list. */
  datatype Filter = All | ShortIn(shorts: seq<Scalar>) | IdIn(ids: seq<Scalar>)

  /** The `key` of a subset load: `'short'` or `'id'`. */
  datatype SubsetKey = ShortKey | IdKey

  /** The filter of a subset load over its inclusion list. */
  function FilterOf(key: SubsetKey, items: seq<Scalar>): Filter {
    if key == ShortKey then ShortIn(items) else IdIn(items)
  }

  /** `short in sublist` or `siteid in sublist`: a str is never equal to an int. */
  predicate Retains(filter: Filter, siteId: int, short: string) {
    match filter
    case All => true
    case ShortIn(shorts) => Str(short) in shorts
    case IdIn(ids) => Int(siteId) in ids
  }

  /** A line the loaders read: not empty once right-stripped, and not a `#` comment. */
  predicate IsDataLine(line: string) {
    var text := RStrip(line);
    text != [] && text[0] != '#'
  }

  /** The lines a loader reads, in file order. */
  function DataLines(lines: seq<string>): (r: seq<string>)
    ensures |r| <= |lines|
    ensures forall i :: 0 <= i < |r| ==> IsDataLine(r[i])
    ensures forall l :: l in r <==> l in lines && IsDataLine(l)
    decreases |lines|
  {
    if lines == [] then []
    else
      var init := DataLines(lines[..|lines| - 1]);
      if IsDataLine(lines[|lines| - 1]) then init + [lines[|lines| - 1]] else init
  }

  /** `int(text)`, raising ValueError when the text is not a decimal literal. */
  function IntOf(text: string): (r: Fallible<int>)
    ensures r.Err? ==> r.error == NotAnInt(text)
  {
    match ParseInt(text)
    case Some(n) => Ok(n)
    case None => Err(NotAnInt(text))
  }

  /**
   * One `site_version.csv` line under `filter`: None for a skipped line or a
   * row the filter drops, the row's Site otherwise. The fields are read in
   * the source's order: `int(linelist[0])`, `linelist[1]`, the membership
   * test, then `linelist[2]` to `linelist[4]` for a row that is kept.
   */
  function ParseRow(line: string, root: string, filter: Filter): (r: Fallible<Option<Site>>)
    ensures r.Err? ==> r.error == IndexOutOfRange || r.error.NotAnInt?
    ensures r.Ok? && r.value.Some? ==>
              r.value.value.siteDataRoot == root && Retains(filter, r.value.value.siteId, r.value.value.short)
  {
    if !IsDataLine(line) then Ok(None)
    else
      var fields := Split(RStrip(line), ',');
      var siteId :- IntOf(fields[0]);
      if |fields| < 2 then Err(IndexOutOfRange)
      else if !Retains(filter, siteId, fields[1]) then Ok(None)
      else if |fields| < 5 then Err(IndexOutOfRange)
      else Ok(Some(Site(siteId, fields[1], fields[2], fields[3], fields[4], root)))
  }

  /**
   * A row written out from a site's fields reads back as that site: with no
   * comma inside a field and a site db that does not end in whitespace, the
   * line `id,short,domain,version,db` is the Site of those fields when the
   * filter keeps it, and is skipped otherwise.
   */
  lemma ParseRowOfJoin(siteId: int, short: string, domain: string, version: string, db: string,
                       root: string, filter: Filter)
    requires ',' !in short && ',' !in domain && ',' !in version && ',' !in db
    requires db != [] && !IsSpace(db[|db| - 1])
    ensures ParseRow(Join([IntToString(siteId), short, domain, version, db], ','), root, filter) ==
              if Retains(filter, siteId, short) then Ok(Some(Site(siteId, short, domain, version, db, root)))
              else Ok(None)
  {
    RowLine(siteId, short, domain, version, db);
    ParseIntOfIntToString(siteId);
  }

  /** The line written from a site's fields is a data line that splits back into those fields. */
  lemma RowLine(siteId: int, short: string, domain: string, version: string, db: string)
    requires ',' !in short && ',' !in domain && ',' !in version && ',' !in db
    requires db != [] && !IsSpace(db[|db| - 1])
    ensures var line := Join([IntToString(siteId), short, domain, version, db], ',');
            && RStrip(line) == line && IsDataLine(line)
            && Split(line, ',') == [IntToString(siteId), short, domain, version, db]
  {
    var id := IntToString(siteId);
    forall i | 0 <= i < |id|
      ensures id[i] != ',' && id[i] != '#'
    {
      if siteId < 0 && i > 0 {
        assert id[i] == id[1..][i - 1];
      }
    }
    var parts := [id, short, domain, version, db];
    SplitOfJoin(parts, ',');
    var line := Join(parts, ',');
    var vd := version + [','] + db;
    assert Join([version, db], ',') == vd;
    assert Join([domain, version, db], ',') == domain + [','] + vd;
    var tail := short + [','] + (domain + [','] + vd);
    assert Join([short, domain, version, db], ',') == tail;
    assert line == id + [','] + tail;
    assert line[|line| - 1] == db[|db| - 1];
    assert RStrip(line) == line;
  }

  /** The sites a parsed row contributes: none or one. */
  function RowSites(row: Option<Site>): seq<Site> {
    if row.Some? then [row.value] else []
  }

  /**
   * A whole load under `filter`: the sites of the kept rows in file order,
   * or the error of the first line that fails.
   */
  function LoadSites(lines: seq<string>, root: string, filter: Filter): (r: Fallible<seq<Site>>)
    ensures r.Err? ==> r.error == IndexOutOfRange || r.error.NotAnInt?
    decreases |lines|
  {
    if lines == [] then Ok([])
    else
      var init :- LoadSites(lines[..|lines| - 1], root, filter);
      var row :- ParseRow(lines[|lines| - 1], root, filter);
      Ok(init + RowSites(row))
  }

  /**
   * A load holds at most one site per data line, every site carries the
   * given site-data root, and the filter retains every site.
   */
  lemma {:induction false} LoadSitesKept(lines: seq<string>, root: string, filter: Filter)
    requires LoadSites(lines, root, filter).Ok?
    ensures |LoadSites(lines, root, filter).value| <= |DataLines(lines)|
    ensures forall s :: s in LoadSites(lines, root, filter).value ==>
              s.siteDataRoot == root && Retains(filter, s.siteId, s.short)
    decreases |lines|
  {
    if lines != [] {
      LoadSitesKept(lines[..|lines| - 1], root, filter);
    }
  }

  /** A load of one more line: the load so far, then that line's row. */
  lemma LoadSitesSnoc(lines: seq<string>, i: nat, root: string, filter: Filter)
    requires i < |lines|
    ensures LoadSites(lines[..i + 1], root, filter) ==
      match LoadSites(lines[..i], root, filter)
      case Err(e) => Err(e)
      case Ok(sites) =>
        match ParseRow(lines[i], root, filter)
        case Err(e) => Err(e)
        case Ok(row) => Ok(sites + RowSites(row))
  {
    assert lines[..i + 1][..i] == lines[..i];
  }

  /** Once a prefix of the file has failed, the whole load fails with the same error. */
  lemma {:induction false} LoadSitesErrorPersists(lines: seq<string>, k: nat, root: string, filter: Filter)
    requires k <= |lines| && LoadSites(lines[..k], root, filter).Err?
    ensures LoadSites(lines, root, filter) == LoadSites(lines[..k], root, filter)
    decreases |lines| - k
  {
    if k < |lines| {
      var init := lines[..|lines| - 1];
      assert init[..k] == lines[..k];
      LoadSitesErrorPersists(init, k, root, filter);
    } else {
      assert lines[..k] == lines;
    }
  }

  /**
   * One step of the row loop: after a prefix that loaded `loaded`, a row
   * that parses extends the prefix by its sites, and a failing row is the
   * whole load's error.
   */
  lemma LoadSitesStep(lines: seq<string>, i: nat, root: string, filter: Filter, loaded: seq<Site>,
                      appended: seq<Site>, outcome: Outcome<Error>)
    requires i < |lines| && LoadSites(lines[..i], root, filter) == Ok(loaded)
    requires match ParseRow(lines[i], root, filter)
             case Ok(row) => outcome == Pass && appended == RowSites(row)
             case Err(e) => outcome == Fail(e)
    ensures outcome.Pass? ==> LoadSites(lines[..i + 1], root, filter) == Ok(loaded + appended)
    ensures outcome.Fail? ==> LoadSites(lines, root, filter) == Err(outcome.error)
  {
    LoadSitesSnoc(lines, i, root, filter);
    if outcome.Fail? {
      LoadSitesErrorPersists(lines, i + 1, root, filter);
    }
  }

  /** What each line parses to on its own, in file order. */
  ghost function Parses(lines: seq<string>, root: string, filter: Filter): seq<Fallible<Option<Site>>> {
    seq(|lines|, i requires 0 <= i < |lines| => ParseRow(lines[i], root, filter))
  }

  /** The fold `LoadSites` performs, over rows already parsed: the first error, or the kept sites in order. */
  function Collect(rows: seq<Fallible<Option<Site>>>): Fallible<seq<Site>>
    decreases |rows|
  {
    if rows == [] then Ok([])
    else
      var init :- Collect(rows[..|rows| - 1]);
      var row :- rows[|rows| - 1];
      Ok(init + RowSites(row))
  }

  /** The positions of the rows that hold a site, in order. */
  function KeptOf(rows: seq<Fallible<Option<Site>>>): seq<nat>
    decreases |rows|
  {
    if rows == [] then []
    else
      var init := KeptOf(rows[..|rows| - 1]);
      if rows[|rows| - 1].Ok? && rows[|rows| - 1].value.Some? then init + [|rows| - 1] else init
  }

  /** The positions of the lines whose row a load under `filter` keeps. */
  ghost function KeptRows(lines: seq<string>, root: string, filter: Filter): seq<nat> {
    KeptOf(Parses(lines, root, filter))
  }

  /** A load is the fold over its lines' parses. */
  lemma {:induction false} LoadSitesCollect(lines: seq<string>, root: string, filter: Filter)
    ensures LoadSites(lines, root, filter) == Collect(Parses(lines, root, filter))
    decreases |lines|
  {
    if lines != [] {
      var n := |lines| - 1;
      var init := lines[..n];
      LoadSitesCollect(init, root, filter);
      var rows := Parses(lines, root, filter);
      assert rows[..n] == Parses(init, root, filter);
      var before := LoadSites(init, root, filter);
      var row := ParseRow(lines[n], root, filter);
      assert rows[n] == row;
      var expected := if before.Err? then Err(before.error)
                      else if row.Err? then Err(row.error)
                      else Ok(before.value + RowSites(row.value));
      assert LoadSites(lines, root, filter) == expected;
      assert Collect(rows) == expected;
    }
  }

  /** The fold succeeds exactly when every row does. */
  lemma {:induction false} CollectSucceeds(rows: seq<Fallible<Option<Site>>>)
    ensures Collect(rows).Ok? <==> forall i :: 0 <= i < |rows| ==> rows[i].Ok?
    decreases |rows|
  {
    if rows != [] {
      var init := rows[..|rows| - 1];
      CollectSucceeds(init);
      assert forall i :: 0 <= i < |init| ==> init[i] == rows[i];
    }
  }

  /**
   * A successful fold holds the sites of the kept rows: the j-th site is the
   * j-th kept row's, the kept positions increase, and every other row holds
   * no site.
   */
  lemma {:induction false} CollectRows(rows: seq<Fallible<Option<Site>>>)
    requires Collect(rows).Ok?
    ensures var sites := Collect(rows).value;
            var kept := KeptOf(rows);
            && |kept| == |sites|
            && (forall j :: 0 <= j < |kept| ==> kept[j] < |rows| && rows[kept[j]] == Ok(Some(sites[j])))
            && (forall j, k :: 0 <= j < k < |kept| ==> kept[j] < kept[k])
            && (forall i :: 0 <= i < |rows| && i !in kept ==> rows[i] == Ok(None))
    decreases |rows|
  {
    if rows != [] {
      var n := |rows| - 1;
      var init := rows[..n];
      CollectRows(init);
      var initKept := KeptOf(init);
      assert forall j :: 0 <= j < |initKept| ==> rows[initKept[j]] == init[initKept[j]];
      forall i | 0 <= i < |rows| && i !in KeptOf(rows)
        ensures rows[i] == Ok(None)
      {
        if i < n {
          assert rows[i] == init[i] && i !in initKept;
        }
      }
    }
  }

  /**
   * A load succeeds exactly when every line parses on its own under the same
   * filter; a subset load therefore accepts rows it drops before their
   * missing fields are read.
   */
  lemma LoadSitesSucceeds(lines: seq<string>, root: string, filter: Filter)
    ensures LoadSites(lines, root, filter).Ok? <==> forall i :: 0 <= i < |lines| ==> ParseRow(lines[i], root, filter).Ok?
  {
    LoadSitesCollect(lines, root, filter);
    var rows := Parses(lines, root, filter);
    CollectSucceeds(rows);
    assert forall i :: 0 <= i < |lines| ==> rows[i] == ParseRow(lines[i], root, filter);
  }

  /**
   * What a successful load under any filter holds: the j-th site is the row
   * of the j-th kept line, the kept lines come in file order, and every
   * other line is skipped (a blank or comment line, or a row the filter
   * drops).
   */
  lemma LoadSitesRows(lines: seq<string>, root: string, filter: Filter)
    requires LoadSites(lines, root, filter).Ok?
    ensures var sites := LoadSites(lines, root, filter).value;
            var kept := KeptRows(lines, root, filter);
            && |kept| == |sites|
            && (forall j :: 0 <= j < |kept| ==>
                  kept[j] < |lines| && ParseRow(lines[kept[j]], root, filter) == Ok(Some(sites[j])))
            && (forall j, k :: 0 <= j < k < |kept| ==> kept[j] < kept[k])
            && (forall i :: 0 <= i < |lines| && i !in kept ==> ParseRow(lines[i], root, filter) == Ok(None))
  {
    LoadSitesCollect(lines, root, filter);
    CollectRows(Parses(lines, root, filter));
  }

  /**
   * A successful full load holds one site per data line, in file order:
   * the i-th site is what the i-th data line parses to.
   */
  lemma {:induction false} FullLoadSites(lines: seq<string>, root: string)
    requires LoadSites(lines, root, All).Ok?
    ensures var sites := LoadSites(lines, root, All).value;
            && |sites| == |DataLines(lines)|
            && forall i :: 0 <= i < |sites| ==> ParseRow(DataLines(lines)[i], root, All) == Ok(Some(sites[i]))
    decreases |lines|
  {
    if lines != [] {
      var init := lines[..|lines| - 1];
      var last := lines[|lines| - 1];
      FullLoadSites(init, root);
      var sites := LoadSites(lines, root, All).value;
      var initSites := LoadSites(init, root, All).value;
      var row := ParseRow(last, root, All).value;
      assert sites == initSites + RowSites(row);
      if IsDataLine(last) {
        assert row.Some?;
        assert DataLines(lines) == DataLines(init) + [last];
        forall i | 0 <= i < |sites|
          ensures ParseRow(DataLines(lines)[i], root, All) == Ok(Some(sites[i]))
        {
          if i < |initSites| {
            assert DataLines(lines)[i] == DataLines(init)[i];
          }
        }
      } else {
        assert DataLines(lines) == DataLines(init);
        assert sites == initSites;
      }
    }
  }

  /** The sites of `sites` that `filter` keeps, in order. */
  function FilterSites(sites: seq<Site>, filter: Filter): (r: seq<Site>)
    ensures |r| <= |sites|
    ensures forall s :: s in r <==> s in sites && Retains(filter, s.siteId, s.short)
    decreases |sites|
  {
    if sites == [] then []
    else
      var init := FilterSites(sites[..|sites| - 1], filter);
      var last := sites[|sites| - 1];
      assert sites == sites[..|sites| - 1] + [last];
      if Retains(filter, last.siteId, last.short) then init + [last] else init
  }

  /** A subset parse of a well-formed row keeps exactly the site the full parse gives, if the filter retains it. */
  lemma ParseRowFiltered(line: string, root: string, filter: Filter)
    requires ParseRow(line, root, All).Ok?
    ensures ParseRow(line, root, filter) ==
      match ParseRow(line, root, All).value
      case None => Ok(None)
      case Some(s) => if Retains(filter, s.siteId, s.short) then Ok(Some(s)) else Ok(None)
  {
  }

  /** Filtering a list with one more site at the end. */
  lemma FilterSitesSnoc(sites: seq<Site>, row: Option<Site>, filter: Filter)
    ensures FilterSites(sites + RowSites(row), filter) ==
      FilterSites(sites, filter) + (if row.Some? && Retains(filter, row.value.siteId, row.value.short) then [row.value] else [])
  {
    if row.Some? {
      assert (sites + [row.value])[..|sites|] == sites;
    } else {
      assert sites + [] == sites;
    }
  }

  /**
   * Where the full load succeeds, a subset load gives exactly the full
   * load's sites that its inclusion list names, in file order.
   */
  lemma {:induction false} SubsetIsFilteredFullLoad(lines: seq<string>, root: string, filter: Filter)
    requires LoadSites(lines, root, All).Ok?
    ensures LoadSites(lines, root, filter) == Ok(FilterSites(LoadSites(lines, root, All).value, filter))
    decreases |lines|
  {
    if lines != [] {
      var init := lines[..|lines| - 1];
      var last := lines[|lines| - 1];
      SubsetIsFilteredFullLoad(init, root, filter);
      ParseRowFiltered(last, root, filter);
      var initAll := LoadSites(init, root, All).value;
      var row := ParseRow(last, root, All).value;
      var rowF := ParseRow(last, root, filter).value;
      assert rowF == if row.Some? && Retains(filter, row.value.siteId, row.value.short) then row else None;
      FilterSitesSnoc(initAll, row, filter);
      assert LoadSites(lines, root, All).value == initAll + RowSites(row);
      assert RowSites(rowF) == if row.Some? && Retains(filter, row.value.siteId, row.value.short) then [row.value] else [];
    }
  }

  /** The dictionary a load builds, `d[key(site)] = site` row by row: a later row overwrites an earlier one. */
  ghost function KeyIndex<K>(sites: seq<Site>, key: Site -> K): map<K, Site>
    decreases |sites|
  {
    if sites == [] then map[]
    else KeyIndex(sites[..|sites| - 1], key)[key(sites[|sites| - 1]) := sites[|sites| - 1]]
  }

  /** Every entry of the dictionary is a listed site stored under its own key. */
  lemma {:induction false} KeyIndexValues<K>(sites: seq<Site>, key: Site -> K)
    ensures forall k :: k in KeyIndex(sites, key) ==> KeyIndex(sites, key)[k] in sites && key(KeyIndex(sites, key)[k]) == k
    decreases |sites|
  {
    if sites != [] {
      var init := sites[..|sites| - 1];
      KeyIndexValues(init, key);
      assert forall s :: s in init ==> s in sites;
    }
  }

  /** `shortkey`'s key function. */
  function ShortOf(site: Site): string {
    site.short
  }

  /** `idkey`'s key function. */
  function IdOf(site: Site): int {
    site.siteId
  }

  /** No two sites share a key. */
  ghost predicate UniqueKeys<K>(sites: seq<Site>, key: Site -> K) {
    forall i, j :: 0 <= i < j < |sites| ==> key(sites[i]) != key(sites[j])
  }

  /** The dictionary's keys are exactly the keys of the listed sites. */
  lemma {:induction false} KeyIndexKeys<K>(sites: seq<Site>, key: Site -> K)
    ensures KeyIndex(sites, key).Keys == set i | 0 <= i < |sites| :: key(sites[i])
    decreases |sites|
  {
    if sites != [] {
      var init := sites[..|sites| - 1];
      KeyIndexKeys(init, key);
      var before := set i | 0 <= i < |init| :: key(init[i]);
      var after := set i | 0 <= i < |sites| :: key(sites[i]);
      assert after == before + {key(sites[|sites| - 1])} by {
        forall k | k in after ensures k in before + {key(sites[|sites| - 1])} {
          var i :| 0 <= i < |sites| && key(sites[i]) == k;
          if i < |init| {
            assert init[i] == sites[i];
          }
        }
        forall k | k in before ensures k in after {
          var i :| 0 <= i < |init| && key(init[i]) == k;
          assert sites[i] == init[i];
        }
      }
    }
  }

  /** A site whose key no later site repeats is the dictionary's entry for that key. */
  lemma {:induction false} KeyIndexLastWins<K>(sites: seq<Site>, key: Site -> K, i: int)
    requires 0 <= i < |sites|
    requires forall j :: i < j < |sites| ==> key(sites[j]) != key(sites[i])
    ensures key(sites[i]) in KeyIndex(sites, key) && KeyIndex(sites, key)[key(sites[i])] == sites[i]
    decreases |sites|
  {
    if i < |sites| - 1 {
      var init := sites[..|sites| - 1];
      assert init[i] == sites[i];
      assert forall j :: i < j < |init| ==> init[j] == sites[j];
      KeyIndexLastWins(init, key, i);
    }
  }

  /** With unique keys, every site is its own key's entry and the dictionary is as large as the list. */
  lemma {:induction false} KeyIndexUnique<K>(sites: seq<Site>, key: Site -> K)
    requires UniqueKeys(sites, key)
    ensures |KeyIndex(sites, key)| == |sites|
    ensures forall i :: 0 <= i < |sites| ==>
              key(sites[i]) in KeyIndex(sites, key) && KeyIndex(sites, key)[key(sites[i])] == sites[i]
    decreases |sites|
  {
    if sites != [] {
      var init := sites[..|sites| - 1];
      var last := sites[|sites| - 1];
      assert UniqueKeys(init, key) by {
        forall i, j | 0 <= i < j < |init| ensures key(init[i]) != key(init[j]) {
          assert init[i] == sites[i] && init[j] == sites[j];
        }
      }
      KeyIndexUnique(init, key);
      KeyIndexValues(init, key);
      var before := KeyIndex(init, key);
      assert key(last) !in before;
      assert |before[key(last) := last]| == |before| + 1;
      forall i | 0 <= i < |sites|
        ensures key(sites[i]) in KeyIndex(sites, key) && KeyIndex(sites, key)[key(sites[i])] == sites[i]
      {
        KeyIndexLastWins(sites, key, i);
      }
    }
  }

  /** Appending a site updates the dictionary at that site's key. */
  lemma KeyIndexSnoc<K>(sites: seq<Site>, site: Site, key: Site -> K)
    ensures KeyIndex(sites + [site], key) == KeyIndex(sites, key)[key(site) := site]
  {
    assert (sites + [site])[..|sites|] == sites;
  }

  /**
   * The inclusion list read from a subfile: each data line right-stripped,
   * as a string for short names and through `int()` for ids.
   */
  function SubfileItems(lines: seq<string>, key: SubsetKey): (r: Fallible<seq<Scalar>>)
    ensures r.Err? ==> key == IdKey && r.error.NotAnInt?
    decreases |lines|
  {
    if lines == [] then Ok([])
    else
      var init :- SubfileItems(lines[..|lines| - 1], key);
      if !IsDataLine(lines[|lines| - 1]) then Ok(init)
      else
        var text := RStrip(lines[|lines| - 1]);
        match key
        case ShortKey => Ok(init + [Str(text)])
        case IdKey =>
          var n :- IntOf(text);
          Ok(init + [Int(n)])
  }

  /**
   * A short-name subfile always reads, giving each data line's text; an id
   * subfile reads exactly when every data line is an int, giving those ints.
   */
  lemma {:induction false} SubfileItemsContents(lines: seq<string>, key: SubsetKey)
    ensures SubfileItems(lines, key).Ok? <==>
              key == ShortKey || forall i :: 0 <= i < |DataLines(lines)| ==> ParseInt(RStrip(DataLines(lines)[i])).Some?
    ensures SubfileItems(lines, key).Ok? ==>
              var items := SubfileItems(lines, key).value;
              && |items| == |DataLines(lines)|
              && forall i :: 0 <= i < |items| ==>
                   items[i] == if key == ShortKey then Str(RStrip(DataLines(lines)[i]))
                               else Int(ParseInt(RStrip(DataLines(lines)[i])).value)
    decreases |lines|
  {
    if lines != [] {
      var init := lines[..|lines| - 1];
      var last := lines[|lines| - 1];
      SubfileItemsContents(init, key);
      if IsDataLine(last) {
        assert DataLines(lines) == DataLines(init) + [last];
        assert forall i :: 0 <= i < |DataLines(init)| ==> DataLines(lines)[i] == DataLines(init)[i];
        assert DataLines(lines)[|DataLines(init)|] == last;
      } else {
        assert DataLines(lines) == DataLines(init);
      }
    }
  }

  /**
   * The inclusion list of a subset load: a subfile is read only when no
   * non-empty sublist is given, a sublist is used only when no subfile is
   * given, and anything else is an argument error.
   */
  function Sublist(key: SubsetKey, sublist: seq<Scalar>, subfile: Option<seq<string>>): (r: Fallible<seq<Scalar>>)
    ensures r == Err(SubsetArguments) <==> (sublist == []) == subfile.None?
    ensures subfile.None? && sublist != [] ==> r == Ok(sublist)
    ensures subfile.Some? && sublist == [] ==> r == SubfileItems(subfile.value, key)
  {
    if subfile.Some? && sublist == [] then SubfileItems(subfile.value, key)
    else if sublist != [] && subfile.None? then Ok(sublist)
    else Err(SubsetArguments)
  }

  /** A subset load: the inclusion list first, then the CSV, then the non-empty check. */
  function LoadSubset(key: SubsetKey, lines: seq<string>, root: string, sublist: seq<Scalar>,
                      subfile: Option<seq<string>>): (r: Fallible<seq<Site>>)
    ensures r == Err(SubsetArguments) <==> (sublist == []) == subfile.None?
    ensures r.Ok? ==> |r.value| >= 1
  {
    var items :- Sublist(key, sublist, subfile);
    var sites :- LoadSites(lines, root, FilterOf(key, items));
    if |sites| < 1 then Err(NoSites) else Ok(sites)
  }

  /**
   * The keyword arguments of `SiteList(...)`, with `site_version` given as
   * the file's lines and `subfile` as the lines of the named file (None for
   * no subfile, or the empty path). A missing `sublist` is the empty list:
   * both are falsy and neither is ever iterated.
   */
  datatype SiteListArgs = SiteListArgs(
    all: bool,
    key: Option<string>,
    siteVersion: seq<string>,
    siteDataDir: Option<string>,
    sublist: seq<Scalar>,
    subfile: Option<seq<string>>)

  /**
   * `SiteList(**kwargs)`: the sites it ends up holding, or the error it
   * raises. "Unexpected initialization" is raised exactly when neither
   * `all` nor a known `key` is given; the argument error exactly when a
   * subset load has not exactly one of a non-empty sublist and a subfile,
   * whatever the CSV holds; and a subset load never yields an empty list.
   */
  function LoadSiteList(args: SiteListArgs): (r: Fallible<seq<Site>>)
    ensures r == Err(UnexpectedInitialization) <==> !args.all && args.key != Some("short") && args.key != Some("id")
    ensures r == Err(SubsetArguments) <==>
              && !args.all && (args.key == Some("short") || args.key == Some("id"))
              && (args.sublist == []) == args.subfile.None?
    ensures !args.all && r.Ok? ==> |r.value| >= 1
  {
    var root := args.siteDataDir.GetOr(DefaultSiteDataRoot);
    if args.all then LoadSites(args.siteVersion, root, All)
    else if args.key == Some("short") then LoadSubset(ShortKey, args.siteVersion, root, args.sublist, args.subfile)
    else if args.key == Some("id") then LoadSubset(IdKey, args.siteVersion, root, args.sublist, args.subfile)
    else Err(UnexpectedInitialization)
  }

  /** A full load of a file of blank and comment lines holds no site. */
  lemma EmptyLoads(args: SiteListArgs)
    requires args.all && forall i :: 0 <= i < |args.siteVersion| ==> !IsDataLine(args.siteVersion[i])
    ensures LoadSiteList(args) == Ok([])
  {
    NoDataLines(args.siteVersion, args.siteDataDir.GetOr(DefaultSiteDataRoot), All);
  }

  /** A file of blank and comment lines loads as no site. */
  lemma {:induction false} NoDataLines(lines: seq<string>, root: string, filter: Filter)
    requires forall i :: 0 <= i < |lines| ==> !IsDataLine(lines[i])
    ensures LoadSites(lines, root, filter) == Ok([])
    decreases |lines|
  {
    if lines != [] {
      var init := lines[..|lines| - 1];
      assert forall i :: 0 <= i < |init| ==> init[i] == lines[i];
      NoDataLines(init, root, filter);
      var none: seq<Site> := [];
      assert none + [] == none;
    }
  }

  /**
   * Where the full load of the CSV succeeds, a subset load with a sublist
   * gives the full load's sites that the sublist names, in file order, or
   * fails when there are none.
   */
  lemma SubsetOfFullLoad(args: SiteListArgs, key: SubsetKey)
    requires !args.all && args.key == Some(if key == ShortKey then "short" else "id")
    requires args.sublist != [] && args.subfile.None?
    requires LoadSites(args.siteVersion, args.siteDataDir.GetOr(DefaultSiteDataRoot), All).Ok?
    ensures var kept := FilterSites(LoadSites(args.siteVersion, args.siteDataDir.GetOr(DefaultSiteDataRoot), All).value,
                                    FilterOf(key, args.sublist));
            LoadSiteList(args) == if kept == [] then Err(NoSites) else Ok(kept)
  {
    SubsetIsFilteredFullLoad(args.siteVersion, args.siteDataDir.GetOr(DefaultSiteDataRoot), FilterOf(key, args.sublist));
  }

  /** `subfile` read loop: the inclusion list a subset load reads from its subfile. */
  method ReadSubfile(lines: seq<string>, key: SubsetKey) returns (r: Fallible<seq<Scalar>>)
    ensures r == SubfileItems(lines, key)
  {
    var items: seq<Scalar> := [];
    var i := 0;
    while i < |lines|
      invariant 0 <= i <= |lines|
      invariant SubfileItems(lines[..i], key) == Ok(items)
    {
      assert lines[..i + 1][..i] == lines[..i];
      var text := RStrip(lines[i]);
      if text != [] && text[0] != '#' {
        if key == ShortKey {
          items := items + [Str(text)];
        } else {
          var n := ParseInt(text);
          if n.None? {
            SubfileItemsErrorPersists(lines, i + 1, key);
            return Err(NotAnInt(text));
          }
          items := items + [Int(n.value)];
        }
      }
      i := i + 1;
    }
    assert lines[..i] == lines;
    return Ok(items);
  }

  /** Once a prefix of the subfile has failed, the whole subfile fails with the same error. */
  lemma {:induction false} SubfileItemsErrorPersists(lines: seq<string>, k: nat, key: SubsetKey)
    requires k <= |lines| && SubfileItems(lines[..k], key).Err?
    ensures SubfileItems(lines, key) == SubfileItems(lines[..k], key)
    decreases |lines| - k
  {
    if k < |lines| {
      var init := lines[..|lines| - 1];
      assert init[..k] == lines[..k];
      SubfileItemsErrorPersists(init, k, key);
    } else {
      assert lines[..k] == lines;
    }
  }

  /** Python's `seq[i]`: a negative position counts from the end. */
  function PyIndex<T>(s: seq<T>, i: int): (r: Fallible<T>)
    ensures r.Ok? <==> -|s| <= i < |s|
    ensures r.Ok? ==> r.value == s[if i < 0 then |s| + i else i]
  {
    if 0 <= i < |s| then Ok(s[i])
    else if -|s| <= i < 0 then Ok(s[|s| + i])
    else Err(IndexOutOfRange)
  }

  /** The two dictionaries are the list keyed by short name and by site id, the last row winning. */
  ghost predicate Synced(list: seq<Site>, shortKey: map<string, Site>, idKey: map<int, Site>) {
    shortKey == KeyIndex(list, ShortOf) && idKey == KeyIndex(list, IdOf)
  }

  /** The mutable SiteList object. */
  class SiteList {
    var list: seq<Site>
    var index: int
    var shortKey: map<string, Site>
    var idKey: map<int, Site>
    var dataLen: int

    /** The state after construction: dictionaries in sync, `_data_len` the list's length, the cursor within it. */
    ghost predicate Valid()
      reads this
    {
      Synced(list, shortKey, idKey) && dataLen == |list| && 0 <= index <= |list|
    }

    /** The attribute values `__init__` sets before loading. */
    constructor ()
      ensures list == [] && index == 0 && shortKey == map[] && idKey == map[] && dataLen == 0
      ensures Valid()
    {
      list := [];
      index := 0;
      shortKey := map[];
      idKey := map[];
      dataLen := 0;
    }

    /**
     * The body of the row loop shared by the three loaders: a kept row is
     * appended to the list and written into both dictionaries.
     */
    method AppendRow(line: string, root: string, filter: Filter) returns (outcome: Outcome<Error>)
      requires Synced(list, shortKey, idKey)
      modifies this`list, this`shortKey, this`idKey
      ensures Synced(list, shortKey, idKey)
      ensures match ParseRow(line, root, filter)
              case Ok(row) => outcome == Pass && list == old(list) + RowSites(row)
              case Err(e) => outcome == Fail(e) && list == old(list)
    {
      var text := RStrip(line);
      if text == [] || text[0] == '#' {
        return Pass;
      }
      var fields := Split(text, ',');
      var parsed := ParseInt(fields[0]);
      if parsed.None? {
        return Fail(NotAnInt(fields[0]));
      }
      var siteId := parsed.value;
      if |fields| < 2 {
        return Fail(IndexOutOfRange);
      }
      var short := fields[1];
      if !Retains(filter, siteId, short) {
        return Pass;
      }
      if |fields| < 5 {
        return Fail(IndexOutOfRange);
      }
      var site := Site(siteId, short, fields[2], fields[3], fields[4], root);
      KeyIndexSnoc(list, site, ShortOf);
      KeyIndexSnoc(list, site, IdOf);
      list := list + [site];
      shortKey := shortKey[short := site];
      idKey := idKey[siteId := site];
      return Pass;
    }

    /** The row loop: every line in file order; the first bad line raises. */
    method AppendRows(lines: seq<string>, root: string, filter: Filter) returns (outcome: Outcome<Error>)
      requires Synced(list, shortKey, idKey)
      modifies this`list, this`shortKey, this`idKey
      ensures Synced(list, shortKey, idKey)
      ensures match LoadSites(lines, root, filter)
              case Ok(sites) => outcome == Pass && list == old(list) + sites
              case Err(e) => outcome == Fail(e)
    {
      var i := 0;
      ghost var loaded: seq<Site> := [];
      while i < |lines|
        invariant 0 <= i <= |lines|
        invariant Synced(list, shortKey, idKey)
        invariant LoadSites(lines[..i], root, filter) == Ok(loaded)
        invariant list == old(list) + loaded
      {
        ghost var before := list;
        outcome := AppendRow(lines[i], root, filter);
        LoadSitesStep(lines, i, root, filter, loaded, list[|before|..], outcome);
        if outcome.Fail? {
          return;
        }
        loaded := loaded + list[|before|..];
        i := i + 1;
      }
      assert lines[..i] == lines;
      return Pass;
    }

    /** `_initialize_with_csv`: every data row, then `_data_len`; no check that any site was read. */
    method InitializeWithCsv(lines: seq<string>, root: string) returns (outcome: Outcome<Error>)
      requires Synced(list, shortKey, idKey)
      modifies this`list, this`shortKey, this`idKey, this`dataLen
      ensures Synced(list, shortKey, idKey)
      ensures match LoadSites(lines, root, All)
              case Ok(sites) => outcome == Pass && list == old(list) + sites && dataLen == |list|
              case Err(e) => outcome == Fail(e)
    {
      outcome := AppendRows(lines, root, All);
      if outcome.Fail? {
        return;
      }
      dataLen := |list|;
    }

    /**
     * `_initialize_with_csv_short_subset` (key ShortKey) and
     * `_initialize_with_csv_id_subset` (key IdKey): the inclusion list is
     * settled before the CSV is read, and a load left with no site raises.
     */
    method InitializeWithCsvSubset(key: SubsetKey, lines: seq<string>, root: string, sublist: seq<Scalar>,
                                   subfile: Option<seq<string>>) returns (outcome: Outcome<Error>)
      requires Synced(list, shortKey, idKey)
      modifies this`list, this`shortKey, this`idKey, this`dataLen
      ensures Synced(list, shortKey, idKey)
      ensures match Sublist(key, sublist, subfile)
              case Err(e) => outcome == Fail(e) && list == old(list)
              case Ok(items) =>
                match LoadSites(lines, root, FilterOf(key, items))
                case Err(e) => outcome == Fail(e)
                case Ok(sites) =>
                  && list == old(list) + sites && dataLen == |list|
                  && outcome == if |list| < 1 then Fail(NoSites) else Pass
      ensures old(list) == [] ==>
                if outcome.Pass? then LoadSubset(key, lines, root, sublist, subfile) == Ok(list)
                else LoadSubset(key, lines, root, sublist, subfile) == Err(outcome.error)
    {
      var items: seq<Scalar>;
      if subfile.Some? && sublist == [] {
        var read := ReadSubfile(subfile.value, key);
        if read.Err? {
          return Fail(read.error);
        }
        items := read.value;
      } else if sublist != [] && subfile.None? {
        items := sublist;
      } else {
        return Fail(SubsetArguments);
      }
      outcome := AppendRows(lines, root, FilterOf(key, items));
      if outcome.Fail? {
        return;
      }
      dataLen := |list|;
      assert old(list) == [] ==> list == LoadSites(lines, root, FilterOf(key, items)).value;
      if dataLen < 1 {
        return Fail(NoSites);
      }
    }

    /** `__len__`. */
    function Len(): (n: int)
      reads this
      requires Valid()
      ensures n == |list|
    {
      dataLen
    }

    /** `__getitem__`: positional indexing into the list, negative positions counting from the end. */
    function GetItem(i: int): Fallible<Site>
      reads this
    {
      PyIndex(list, i)
    }

    /**
     * Position and dictionary agree: with unique short names and ids, the
     * site at any valid position is the dictionaries' entry for its short
     * name and for its id.
     */
    lemma LookupsAgree(i: int)
      requires Synced(list, shortKey, idKey) && UniqueKeys(list, ShortOf) && UniqueKeys(list, IdOf)
      requires GetItem(i).Ok?
      ensures GetItem(i).value.short in shortKey && shortKey[GetItem(i).value.short] == GetItem(i).value
      ensures GetItem(i).value.siteId in idKey && idKey[GetItem(i).value.siteId] == GetItem(i).value
    {
      var k := if i < 0 then |list| + i else i;
      KeyIndexUnique(list, ShortOf);
      KeyIndexUnique(list, IdOf);
      assert ShortOf(list[k]) == list[k].short && IdOf(list[k]) == list[k].siteId;
    }

    /**
     * `__next__`: the site at the cursor, advancing it; past the end the
     * cursor goes back to 0 and iteration stops (None).
     */
    method Next() returns (r: Option<Site>)
      requires 0 <= index
      modifies this`index
      ensures old(index) < |list| ==> r == Some(list[old(index)]) && index == old(index) + 1
      ensures old(index) >= |list| ==> r == None && index == 0
    {
      index := index + 1;
      if index - 1 < |list| {
        return Some(list[index - 1]);
      }
      index := 0;
      return None;
    }

    /**
     * A `for site in sitelist` loop (`__iter__` returns the object itself):
     * the sites from the cursor to the end, in order, leaving the cursor at
     * 0 so that the next loop starts over.
     */
    method Iterate() returns (items: seq<Site>)
      requires 0 <= index <= |list|
      modifies this`index
      ensures items == list[old(index)..] && index == 0
    {
      items := [];
      var done := false;
      while !done
        invariant !done ==> old(index) <= index <= |list| && items == list[old(index)..index]
        invariant done ==> items == list[old(index)..] && index == 0
        decreases if done then 0 else |list| - index + 1
      {
        var r := Next();
        if r.None? {
          done := true;
        } else {
          items := items + [r.value];
        }
      }
    }
  }

  /**
   * `SiteList(**kwargs)` given the files' lines: either a fresh SiteList
   * holding exactly the sites LoadSiteList computes, with both dictionaries
   * in sync and the cursor at 0, or its error.
   */
  method NewSiteList(args: SiteListArgs) returns (r: Fallible<SiteList>)
    ensures match LoadSiteList(args)
            case Ok(sites) => r.Ok? && fresh(r.value) && r.value.list == sites && r.value.Valid() && r.value.index == 0
            case Err(e) => r == Err(e)
  {
    var s := new SiteList();
    var root := args.siteDataDir.GetOr(DefaultSiteDataRoot);
    var outcome: Outcome<Error>;
    if args.all {
      outcome := s.InitializeWithCsv(args.siteVersion, root);
    } else if args.key == Some("short") {
      outcome := s.InitializeWithCsvSubset(ShortKey, args.siteVersion, root, args.sublist, args.subfile);
    } else if args.key == Some("id") {
      outcome := s.InitializeWithCsvSubset(IdKey, args.siteVersion, root, args.sublist, args.subfile);
    } else {
      return Err(UnexpectedInitialization);
    }
    if outcome.Fail? {
      return Err(outcome.error);
    }
    return Ok(s);
  }
}
