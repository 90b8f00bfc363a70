/** The exceptions the cluster, site and pool loaders raise, one constructor per kind of raise. */
module Errors {
  import opened Results
  import opened Text

  datatype Error =
      /** RuntimeError: the `.production` file holds more than one line. */
    | ProdFileMultiLine
      /** RuntimeError: the cluster id (None when the file was empty) is not a key of CLUSTER_IDS. */
    | InvalidClusterId(id: Option<Scalar>)
      /** RuntimeError: a `databases.csv` line has no second comma-separated field. */
    | DbFileFormat(line: string)
      /** RuntimeError: a database name does not start with `"db" + str(cluster_number)`. */
    | InvalidDbValue(value: string)
      /** ValueError: `int()` was given something that is not a decimal literal. */
    | NotAnInt(text: string)
      /** IndexError: a CSV row lacks a field that is read, or a list position is out of range. */
    | IndexOutOfRange
      /** RuntimeError: a subset load got both or neither of a non-empty sublist and a subfile. */
    | SubsetArguments
      /** RuntimeError: a subset load retained no site. */
    | NoSites
      /** RuntimeError: the SiteList keyword arguments select no kind of load. */
    | UnexpectedInitialization
      /** ValueError: the pool `type` is missing or not one of the accepted types. */
    | InvalidPoolType
      /** ValueError: the pool `db` is missing or not in the cluster's database list. */
    | InvalidPoolDb
      /** ValueError: the pool `min` lies outside 1..5. */
    | InvalidPoolMin
      /** ValueError: the pool `max` lies outside 1..10. */
    | InvalidPoolMax
      /** TypeError: a keyword argument was given twice to a constructor. */
    | DuplicateKeyword(name: string)

  type Fallible<T> = Result<T, Error>
}
