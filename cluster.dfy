/**
 * The cluster loader (`Cluster` in databasetests/utils.py): a one-line
 * `.production` marker gives the cluster id, the fixed table CLUSTER_IDS
 * gives its number and whether it is a production cluster, and
 * `databases.csv` gives the cluster's database names, each of which must
 * start with `"db" + str(cluster_number)`.
 *
 * Files are the lines `readlines()` returns (line terminators kept); opening
 * them is not modelled.
 */
module Clusters {
  import opened Results
  import opened Text
  import opened Errors

  /** CLUSTER_IDS: the known cluster ids and their cluster numbers. */
  const ClusterIds: map<Scalar, int> := map[Str("tc") := 1, Str("itc") := 8, Int(2) := 2, Int(3) := 3]

  /** The production clusters: `cluster_id == 2 or cluster_id == 3`. */
  predicate IsProdId(id: Scalar) {
    id == Int(2) || id == Int(3)
  }

  /** The prefix every database name of cluster `number` must carry. */
  function DbPrefix(number: int): string {
    "db" + IntToString(number)
  }

  /**
   * What reading the `.production` lines yields: the last line's id (None
   * when there is no line), unless there is more than one line.
   */
  function ProdFileId(lines: seq<string>): Fallible<Option<Scalar>> {
    if |lines| > 1 then Err(ProdFileMultiLine)
    else if lines == [] then Ok(None)
    else Ok(Some(IntOrString(RStrip(lines[0]))))
  }

  /** One `databases.csv` line: its second comma field, if that starts with the cluster's prefix. */
  function DbValue(line: string, number: int): Fallible<string> {
    var fields := Split(line, ',');
    if |fields| < 2 then Err(DbFileFormat(line))
    else if Take(fields[1], 3) == DbPrefix(number) then Ok(fields[1])
    else Err(InvalidDbValue(fields[1]))
  }

  /** The database list of a whole `databases.csv`, or the error of its first bad line. */
  function DbList(lines: seq<string>, number: int): Fallible<seq<string>>
    decreases |lines|
  {
    if lines == [] then Ok([])
    else
      var init :- DbList(lines[..|lines| - 1], number);
      var value :- DbValue(lines[|lines| - 1], number);
      Ok(init + [value])
  }

  /** The attributes of a successfully built Cluster. */
  datatype ClusterInfo = ClusterInfo(clusterId: Scalar, clusterNumber: int, isProd: bool, dbList: seq<string>)

  /**
   * `Cluster(prod_file, db_file)`: the whole construction, in the source's
   * order: the marker file, the id check, the number and production flag,
   * then the database file.
   */
  function LoadCluster(prodLines: seq<string>, dbLines: seq<string>): (r: Fallible<ClusterInfo>)
    ensures |prodLines| > 1 ==> r == Err(ProdFileMultiLine)
    ensures prodLines == [] ==> r == Err(InvalidClusterId(None))
    ensures r.Ok? ==> |prodLines| == 1 && r.value.clusterId == IntOrString(RStrip(prodLines[0]))
    ensures r.Ok? ==> r.value.clusterId in ClusterIds && r.value.clusterNumber == ClusterIds[r.value.clusterId]
    ensures r.Ok? ==> (r.value.isProd <==> r.value.clusterNumber == 2 || r.value.clusterNumber == 3)
    ensures r.Ok? ==> |r.value.dbList| == |dbLines|
    ensures r.Ok? ==> forall i :: 0 <= i < |r.value.dbList| ==> DbPrefix(r.value.clusterNumber) <= r.value.dbList[i]
    ensures r.Ok? ==> forall i :: 0 <= i < |dbLines| ==>
                        |Split(dbLines[i], ',')| >= 2 && r.value.dbList[i] == Split(dbLines[i], ',')[1]
  {
    var id :- ProdFileId(prodLines);
    if id.None? || id.value !in ClusterIds then Err(InvalidClusterId(id))
    else
      var number := ClusterIds[id.value];
      var dbs :- DbList(dbLines, number);
      DbListContents(dbLines, number);
      Ok(ClusterInfo(id.value, number, IsProdId(id.value), dbs))
  }

  /**
   * A database file loads exactly when every line has a second field with
   * the right prefix; the list is then those second fields, in file order.
   */
  lemma {:induction false} DbListContents(lines: seq<string>, number: int)
    requires 0 <= number < 10
    ensures DbList(lines, number).Ok? <==> forall i :: 0 <= i < |lines| ==> DbValue(lines[i], number).Ok?
    ensures DbList(lines, number).Ok? ==>
      var dbs := DbList(lines, number).value;
      && |dbs| == |lines|
      && (forall i :: 0 <= i < |lines| ==> dbs[i] == Split(lines[i], ',')[1])
      && (forall i :: 0 <= i < |lines| ==> DbPrefix(number) <= dbs[i])
    decreases |lines|
  {
    if lines != [] {
      var init := lines[..|lines| - 1];
      DbListContents(init, number);
      assert forall i :: 0 <= i < |init| ==> init[i] == lines[i];
      var last := lines[|lines| - 1];
      if DbValue(last, number).Ok? {
        var v := DbValue(last, number).value;
        assert |DbPrefix(number)| == 3;
        assert Take(v, 3) <= v;
      }
    }
  }

  /** A database file that fails, fails with the error of its first bad line. */
  lemma {:induction false} DbListFirstError(lines: seq<string>, number: int)
    requires DbList(lines, number).Err?
    ensures exists i :: 0 <= i < |lines| && DbValue(lines[i], number) == Err(DbList(lines, number).error)
             && forall j :: 0 <= j < i ==> DbValue(lines[j], number).Ok?
    decreases |lines|
  {
    var init := lines[..|lines| - 1];
    var k := |lines| - 1;
    if DbList(init, number).Err? {
      DbListFirstError(init, number);
      var i :| 0 <= i < |init| && DbValue(init[i], number) == Err(DbList(init, number).error)
               && forall j :: 0 <= j < i ==> DbValue(init[j], number).Ok?;
      assert init[i] == lines[i];
      assert forall j :: 0 <= j < i ==> init[j] == lines[j];
    } else {
      DbListAllOk(init, number);
      assert forall j :: 0 <= j < k ==> init[j] == lines[j];
      assert DbValue(lines[k], number) == Err(DbList(lines, number).error);
    }
  }

  lemma {:induction false} DbListAllOk(lines: seq<string>, number: int)
    requires DbList(lines, number).Ok?
    ensures forall i :: 0 <= i < |lines| ==> DbValue(lines[i], number).Ok?
    decreases |lines|
  {
    if lines != [] {
      var init := lines[..|lines| - 1];
      DbListAllOk(init, number);
      assert forall i :: 0 <= i < |init| ==> init[i] == lines[i];
    }
  }

  /** Once a prefix of the file has failed, the whole file fails with the same error. */
  lemma {:induction false} DbListErrorPersists(lines: seq<string>, k: nat, number: int)
    requires k <= |lines| && DbList(lines[..k], number).Err?
    ensures DbList(lines, number) == DbList(lines[..k], number)
    decreases |lines| - k
  {
    if k < |lines| {
      var init := lines[..|lines| - 1];
      assert init[..k] == lines[..k];
      DbListErrorPersists(init, k, number);
    } else {
      assert lines[..k] == lines;
    }
  }

  /** Construction succeeds exactly on a one-line marker naming a known cluster and a file of valid database lines. */
  lemma LoadClusterSucceeds(prodLines: seq<string>, dbLines: seq<string>)
    ensures LoadCluster(prodLines, dbLines).Ok? <==>
      && |prodLines| == 1
      && IntOrString(RStrip(prodLines[0])) in ClusterIds
      && forall i :: 0 <= i < |dbLines| ==>
           DbValue(dbLines[i], ClusterIds[IntOrString(RStrip(prodLines[0]))]).Ok?
  {
    if |prodLines| == 1 && IntOrString(RStrip(prodLines[0])) in ClusterIds {
      DbListContents(dbLines, ClusterIds[IntOrString(RStrip(prodLines[0]))]);
    }
  }

  /** The examples of a marker holding `2` (production cluster 2) and `tc` (the test cluster, number 1). */
  lemma MarkerExamples()
    ensures LoadCluster(["2\n"], []) == Ok(ClusterInfo(Int(2), 2, true, []))
    ensures LoadCluster(["tc\n"], []) == Ok(ClusterInfo(Str("tc"), 1, false, []))
  {
    assert RStrip("2\n") == "2";
    assert "2"[..0] == [];
    assert DigitsValue("2") == 2;
    assert RStrip("tc\n") == "tc";
    assert !AllDigits("tc");
  }

  /** A two-field line yields its second field as it stands. */
  lemma TwoFieldLine(first: string, name: string, number: int)
    requires ',' !in first && ',' !in name && Take(name, 3) == DbPrefix(number)
    ensures DbValue(first + [','] + name, number) == Ok(name)
    ensures DbList([first + [','] + name], number) == Ok([name])
  {
    SplitAround(first, name, ',');
    SplitWithoutSep(first, ',');
    SplitWithoutSep(name, ',');
    var lines := [first + [','] + name];
    assert lines[..0] == [];
    assert DbList(lines[..0], number) == Ok([]);
    assert DbValue(lines[0], number) == Ok(name);
    var none: seq<string> := [];
    assert none + [name] == [name];
    assert DbList(lines, number) == Ok(none + [name]);
  }

  /**
   * The database name is the raw second field: when it is the last field of
   * a line, it keeps the line terminator.
   */
  lemma DbValueKeepsLineEnd()
    ensures DbList(["1,db103tc\n"], 1) == Ok(["db103tc\n"])
  {
    assert DigitChar(1) == '1';
    assert "1,db103tc\n" == "1" + [','] + "db103tc\n";
    TwoFieldLine("1", "db103tc\n", 1);
  }

  /** The mutable Cluster object; its fields hold Python's `None` until set. */
  class Cluster {
    var clusterId: Option<Scalar>
    var isProd: Option<bool>
    var dbList: seq<string>
    var clusterNumber: Option<int>

    /** The fields hold the attributes of `info`. */
    ghost predicate Holds(info: ClusterInfo)
      reads this
    {
      && clusterId == Some(info.clusterId)
      && clusterNumber == Some(info.clusterNumber)
      && isProd == Some(info.isProd)
      && dbList == info.dbList
    }

    /** The attribute values `__init__` sets before reading any file. */
    constructor ()
      ensures clusterId == None && isProd == None && dbList == [] && clusterNumber == None
    {
      clusterId := None;
      isProd := None;
      dbList := [];
      clusterNumber := None;
    }

    /**
     * `_process_prod_file_contents`: every line overwrites the cluster id,
     * and more than one line is an error once all are read.
     */
    method ProcessProdFileContents(lines: seq<string>) returns (outcome: Outcome<Error>)
      modifies this`clusterId
      ensures clusterId == if lines == [] then old(clusterId) else Some(IntOrString(RStrip(lines[|lines| - 1])))
      ensures outcome == if |lines| > 1 then Fail(ProdFileMultiLine) else Pass
      ensures old(clusterId) == None ==>
        if outcome.Pass? then ProdFileId(lines) == Ok(clusterId) else ProdFileId(lines) == Err(outcome.error)
    {
      var count := 0;
      var i := 0;
      while i < |lines|
        invariant 0 <= i <= |lines| && count == i
        invariant clusterId == if i == 0 then old(clusterId) else Some(IntOrString(RStrip(lines[i - 1])))
      {
        count := count + 1;
        clusterId := Some(IntOrString(RStrip(lines[i])));
        i := i + 1;
      }
      if count > 1 {
        return Fail(ProdFileMultiLine);
      }
      return Pass;
    }

    /**
     * `_process_db_file_contents`: appends each line's second field after
     * checking its prefix against the cluster number; the first bad line
     * raises.
     */
    method ProcessDbFileContents(lines: seq<string>) returns (outcome: Outcome<Error>)
      requires clusterNumber.Some?
      modifies this`dbList
      ensures match DbList(lines, clusterNumber.value)
              case Ok(dbs) => outcome == Pass && dbList == old(dbList) + dbs
              case Err(e) => outcome == Fail(e)
    {
      var number := clusterNumber.value;
      var i := 0;
      while i < |lines|
        invariant 0 <= i <= |lines|
        invariant DbList(lines[..i], number).Ok?
        invariant dbList == old(dbList) + DbList(lines[..i], number).value
      {
        assert lines[..i + 1][..i] == lines[..i];
        var fields := Split(lines[i], ',');
        if |fields| < 2 {
          DbListErrorPersists(lines, i + 1, number);
          return Fail(DbFileFormat(lines[i]));
        }
        var dbValue := fields[1];
        if Take(dbValue, 3) == DbPrefix(number) {
          dbList := dbList + [dbValue];
        } else {
          DbListErrorPersists(lines, i + 1, number);
          return Fail(InvalidDbValue(dbValue));
        }
        i := i + 1;
      }
      assert lines[..i] == lines;
      return Pass;
    }
  }

  /**
   * `Cluster(prod_file, db_file)` given the two files' lines: either a
   * fresh Cluster holding exactly what LoadCluster computes, or its error.
   */
  method NewCluster(prodLines: seq<string>, dbLines: seq<string>) returns (r: Fallible<Cluster>)
    ensures match LoadCluster(prodLines, dbLines)
            case Ok(info) => r.Ok? && fresh(r.value) && r.value.Holds(info)
            case Err(e) => r == Err(e)
  {
    var c := new Cluster();
    var outcome := c.ProcessProdFileContents(prodLines);
    if outcome.Fail? {
      return Err(outcome.error);
    }
    if c.clusterId.None? || c.clusterId.value !in ClusterIds {
      return Err(InvalidClusterId(c.clusterId));
    }
    c.clusterNumber := Some(ClusterIds[c.clusterId.value]);
    if IsProdId(c.clusterId.value) {
      c.isProd := Some(true);
    } else {
      c.isProd := Some(false);
    }
    outcome := c.ProcessDbFileContents(dbLines);
    if outcome.Fail? {
      return Err(outcome.error);
    }
    return Ok(c);
  }
}
