/**
 * The connection-pool front end of databasetests/LO_DB_Pool/LO_DB_Pool.py:
 * `LODBPool(**kwargs)` loads the cluster, checks the pool keyword arguments
 * against it, fills in the size defaults and picks the kind of session pool;
 * `ConvioPool` and `SitePool` pin the pool type.
 *
 * The cx_Oracle session pool is not created: the model yields the arguments
 * it would be created with.
 */
module DbPools {
  import opened Results
  import opened Errors
  import opened Clusters

  /** `accepted_types`. */
  const AcceptedTypes: seq<string> := ["convio", "site"]

  /**
   * The keyword arguments of `LODBPool(...)`: the `.production` and
   * `databases.csv` overrides as the named files' lines, and the pool
   * settings; None is an absent keyword.
   */
  datatype PoolArgs = PoolArgs(
    prodFile: Option<seq<string>>,
    dbFile: Option<seq<string>>,
    poolType: Option<string>,
    db: Option<string>,
    min: Option<int>,
    max: Option<int>)

  /** The settings that pass validation, with `min` and `max` filled in. */
  datatype PoolSpec = PoolSpec(poolType: string, db: string, min: int, max: int)

  /**
   * The arguments of the `cx_Oracle.SessionPool(...)` call; `user` and
   * `password` are None where the call leaves them out.
   */
  datatype SessionPoolParams = SessionPoolParams(
    user: Option<string>,
    password: Option<string>,
    dsn: string,
    min: int,
    max: int,
    increment: int,
    encoding: string,
    homogeneous: bool)

  /**
   * The files `Cluster(...)` is built from, by the source's four branches;
   * `defaultProd` and `defaultDb` are the lines of Cluster's default files.
   */
  function ClusterSources(args: PoolArgs, defaultProd: seq<string>, defaultDb: seq<string>): (r: (seq<string>, seq<string>))
    ensures r == (args.prodFile.GetOr(defaultProd), args.dbFile.GetOr(defaultDb))
  {
    if args.prodFile.Some? && args.dbFile.Some? then (args.prodFile.value, args.dbFile.value)
    else if args.prodFile.Some? then (args.prodFile.value, defaultDb)
    else if args.dbFile.Some? then (defaultProd, args.dbFile.value)
    else (defaultProd, defaultDb)
  }

  /**
   * The guard checks against the cluster's database list. Validation
   * accepts exactly a listed type, a database of the cluster, a `min` in
   * 1..5 and a `max` in 1..10 (each when given), with no relation between
   * `min` and `max`; the first failing check, in the order type, db, min,
   * max, decides the error; absent sizes default to 1 and 2.
   */
  function ValidatePool(args: PoolArgs, dbList: seq<string>): (r: Fallible<PoolSpec>)
    ensures r.Ok? <==>
      && args.poolType.Some? && args.poolType.value in AcceptedTypes
      && args.db.Some? && args.db.value in dbList
      && (args.min.Some? ==> 1 <= args.min.value <= 5)
      && (args.max.Some? ==> 1 <= args.max.value <= 10)
    ensures (args.poolType.None? || args.poolType.value !in AcceptedTypes) ==> r == Err(InvalidPoolType)
    ensures args.poolType.Some? && args.poolType.value in AcceptedTypes && (args.db.None? || args.db.value !in dbList) ==>
              r == Err(InvalidPoolDb)
    ensures r == Err(InvalidPoolMin) ==>
              && args.poolType.Some? && args.poolType.value in AcceptedTypes && args.db.Some? && args.db.value in dbList
              && args.min.Some? && !(1 <= args.min.value <= 5)
    ensures args.poolType.Some? && args.poolType.value in AcceptedTypes && args.db.Some? && args.db.value in dbList && args.min.Some? && !(1 <= args.min.value <= 5) ==>
              r == Err(InvalidPoolMin)
    ensures r == Err(InvalidPoolMax) ==>
              && args.poolType.Some? && args.poolType.value in AcceptedTypes && args.db.Some? && args.db.value in dbList
              && (args.min.Some? ==> 1 <= args.min.value <= 5) && args.max.Some? && !(1 <= args.max.value <= 10)
    ensures && args.poolType.Some? && args.poolType.value in AcceptedTypes && args.db.Some? && args.db.value in dbList
            && (args.min.Some? ==> 1 <= args.min.value <= 5) && args.max.Some? && !(1 <= args.max.value <= 10) ==>
              r == Err(InvalidPoolMax)
    ensures r.Ok? ==>
      && Some(r.value.poolType) == args.poolType && Some(r.value.db) == args.db
      && r.value.min == (if args.min.Some? then args.min.value else 1)
      && r.value.max == (if args.max.Some? then args.max.value else 2)
  {
    if args.poolType.None? || args.poolType.value !in AcceptedTypes then Err(InvalidPoolType)
    else if args.db.None? || args.db.value !in dbList then Err(InvalidPoolDb)
    else if args.min.Some? && (args.min.value < 1 || args.min.value > 5) then Err(InvalidPoolMin)
    else if args.max.Some? && (args.max.value < 1 || args.max.value > 10) then Err(InvalidPoolMax)
    else Ok(PoolSpec(args.poolType.value, args.db.value, args.min.GetOr(1), args.max.GetOr(2)))
  }

  /** Validation does not relate `min` and `max`: a minimum above the maximum is accepted. */
  lemma MinAboveMaxAccepted(poolType: string, db: string, dbList: seq<string>)
    requires poolType in AcceptedTypes && db in dbList
    ensures ValidatePool(PoolArgs(None, None, Some(poolType), Some(db), Some(5), Some(1)), dbList)
              == Ok(PoolSpec(poolType, db, 5, 1))
  {
  }

  /**
   * The session pool a validated spec creates: `convio` connects as
   * convio/convio over a homogeneous pool, `site` gives no credentials and a
   * heterogeneous pool; both connect to the spec's database with its sizes.
   */
  function SessionPoolFor(spec: PoolSpec): (r: SessionPoolParams)
    requires spec.poolType in AcceptedTypes
    ensures r.homogeneous <==> spec.poolType == "convio"
    ensures r.user.Some? <==> spec.poolType == "convio"
    ensures spec.poolType == "convio" ==> r.user == Some("convio") && r.password == Some("convio")
    ensures spec.poolType == "site" ==> r.password.None?
    ensures r.dsn == spec.db && r.min == spec.min && r.max == spec.max && r.increment == 1 && r.encoding == "UTF-8"
  {
    if spec.poolType == "convio" then
      SessionPoolParams(Some("convio"), Some("convio"), spec.db, spec.min, spec.max, 1, "UTF-8", true)
    else
      SessionPoolParams(None, None, spec.db, spec.min, spec.max, 1, "UTF-8", false)
  }

  /** The attributes of a successfully built pool object. */
  datatype PoolInfo = PoolInfo(cluster: ClusterInfo, pool: SessionPoolParams)

  /**
   * `LODBPool(**kwargs)`: the cluster first, then validation, then the
   * session pool. A cluster error comes before any settings error, and the
   * pool is the session pool of the validated settings: it connects to the
   * given database, one of the loaded cluster's, with the validated sizes.
   */
  function LoadPool(args: PoolArgs, defaultProd: seq<string>, defaultDb: seq<string>): (r: Fallible<PoolInfo>)
    ensures var cluster := LoadCluster(args.prodFile.GetOr(defaultProd), args.dbFile.GetOr(defaultDb));
      && (cluster.Err? ==> r == Err(cluster.error))
      && (cluster.Ok? ==>
            match ValidatePool(args, cluster.value.dbList)
            case Err(e) => r == Err(e)
            case Ok(spec) =>
              && r.Ok? && r.value.cluster == cluster.value
              && r.value.pool == SessionPoolFor(spec)
              && r.value.pool.dsn in cluster.value.dbList
              && r.value.pool.min == spec.min && r.value.pool.max == spec.max)
  {
    var (prodLines, dbLines) := ClusterSources(args, defaultProd, defaultDb);
    var cluster :- LoadCluster(prodLines, dbLines);
    var spec :- ValidatePool(args, cluster.dbList);
    Ok(PoolInfo(cluster, SessionPoolFor(spec)))
  }

  /**
   * `ConvioPool(**kwargs)` / `SitePool(**kwargs)`: `type` is fixed, and a
   * caller's own `type` is a TypeError raised before the cluster is read.
   * A ConvioPool always has the homogeneous convio pool and a SitePool the
   * heterogeneous one.
   */
  function LoadPinnedPool(poolType: string, args: PoolArgs, defaultProd: seq<string>, defaultDb: seq<string>)
    : (r: Fallible<PoolInfo>)
    ensures args.poolType.Some? ==> r == Err(DuplicateKeyword("type"))
    ensures r.Ok? ==> poolType in AcceptedTypes
    ensures r.Ok? && poolType == "convio" ==>
              r.value.pool.homogeneous && r.value.pool.user == Some("convio") && r.value.pool.password == Some("convio")
    ensures r.Ok? && poolType == "site" ==>
              !r.value.pool.homogeneous && r.value.pool.user.None? && r.value.pool.password.None?
  {
    if args.poolType.Some? then Err(DuplicateKeyword("type"))
    else LoadPool(args.(poolType := Some(poolType)), defaultProd, defaultDb)
  }

  /** The pool object: its cluster and the session pool it created. */
  class LODBPool {
    const cluster: Cluster
    const pool: SessionPoolParams

    constructor (cluster: Cluster, pool: SessionPoolParams)
      ensures this.cluster == cluster && this.pool == pool
    {
      this.cluster := cluster;
      this.pool := pool;
    }
  }

  /**
   * `LODBPool(**kwargs)` given the files' lines: a fresh pool object whose
   * cluster holds what LoadCluster computes and whose session pool is the
   * one LoadPool selects, or LoadPool's error.
   */
  method NewLODBPool(args: PoolArgs, defaultProd: seq<string>, defaultDb: seq<string>) returns (r: Fallible<LODBPool>)
    ensures match LoadPool(args, defaultProd, defaultDb)
            case Ok(info) => r.Ok? && fresh(r.value) && r.value.cluster.Holds(info.cluster) && r.value.pool == info.pool
            case Err(e) => r == Err(e)
  {
    var sources := ClusterSources(args, defaultProd, defaultDb);
    var cluster :- NewCluster(sources.0, sources.1);
    var spec :- ValidatePool(args, cluster.dbList);
    var session := SessionPoolFor(spec);
    var p := new LODBPool(cluster, session);
    return Ok(p);
  }

  /** `ConvioPool(**kwargs)` (`poolType` "convio") and `SitePool(**kwargs)` (`poolType` "site"). */
  method NewPinnedPool(poolType: string, args: PoolArgs, defaultProd: seq<string>, defaultDb: seq<string>)
    returns (r: Fallible<LODBPool>)
    ensures match LoadPinnedPool(poolType, args, defaultProd, defaultDb)
            case Ok(info) => r.Ok? && fresh(r.value) && r.value.cluster.Holds(info.cluster) && r.value.pool == info.pool
            case Err(e) => r == Err(e)
  {
    if args.poolType.Some? {
      return Err(DuplicateKeyword("type"));
    }
    r := NewLODBPool(args.(poolType := Some(poolType)), defaultProd, defaultDb);
  }
}
