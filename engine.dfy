/**
 * The two discovery queries of dkr.go, `find` and `image_available`.
 *
 * Each runs a listing command of the engine, splits every line of its output
 * with `strings.Fields` and returns true at the first row that matches. The
 * engine is not modelled: its captured output is given as its lines,
 * header line included. The header is read like any other row: in the
 * engine's default layout field 1 of a container listing's header is `ID`,
 * and the image listing's header has the tag `TAG`, which is never `latest`.
 */
module Engine {
  import opened Results
  import opened Text

  /** Which kind of listing a scan reads. */
  datatype Listing =
    /**
     * A container listing (`docker container ps` or `docker container ls -a`),
     * matched on field 1 of each row. In the engine's default layout that is
     * the image column, not the container name; the model reads field 1 as
     * the code does.
     */
    | Containers
    /** The `docker image ls` listing, matched on field 0 (repository) and field 1 (tag). */
    | Images

  /** Field 1 of a container row is `name`, or an image row shows `name` tagged `latest`. */
  predicate Hit(kind: Listing, row: string, name: string) {
    var parts := Fields(row);
    match kind
    case Containers => |parts| >= 2 && parts[1] == name
    case Images => |parts| >= 2 && parts[0] == name && parts[1] == "latest"
  }

  /**
   * Reading the row indexes past its fields, where the tool would panic.
   * The image scan tests `parts[0] == name && parts[1] == "latest"`, so a
   * one-field row is read safely unless that field is `name`.
   */
  predicate Broken(kind: Listing, row: string, name: string) {
    var parts := Fields(row);
    match kind
    case Containers => |parts| < 2
    case Images => |parts| == 0 || (parts[0] == name && |parts| < 2)
  }

  /** The scan ends at this row, by returning true or by failing. */
  predicate Decides(kind: Listing, row: string, name: string) {
    Hit(kind, row, name) || Broken(kind, row, name)
  }

  /** The row at which the scan ends, or `|rows|` when it reads them all. */
  function FirstDecisive(kind: Listing, rows: seq<string>, name: string): (i: nat)
    ensures i <= |rows|
    ensures forall j :: 0 <= j < i ==> !Decides(kind, rows[j], name)
    ensures i < |rows| ==> Decides(kind, rows[i], name)
  {
    if rows == [] then 0
    else if Decides(kind, rows[0], name) then 0
    else 1 + FirstDecisive(kind, rows[1..], name)
  }

  /** What a scan reports: the first row that matches or cannot be read decides. */
  function Lookup(kind: Listing, rows: seq<string>, name: string): Result<bool> {
    var i := FirstDecisive(kind, rows, name);
    if i == |rows| then Ok(false)
    else if Broken(kind, rows[i], name) then Err(MalformedRow(i))
    else Ok(true)
  }

  /**
   * A scan that completes reports whether some row shows `name`; it always
   * completes on readable rows; it fails only at an unreadable row before
   * which no row showed `name`.
   */
  lemma LookupMeaning(kind: Listing, rows: seq<string>, name: string)
    ensures Lookup(kind, rows, name).Ok? ==>
      (Lookup(kind, rows, name).value <==> exists i :: 0 <= i < |rows| && Hit(kind, rows[i], name))
    ensures (forall i :: 0 <= i < |rows| ==> !Broken(kind, rows[i], name)) ==> Lookup(kind, rows, name).Ok?
    ensures Lookup(kind, rows, name).Err? ==>
      var i := Lookup(kind, rows, name).error.row;
      && Lookup(kind, rows, name).error.MalformedRow?
      && i < |rows| && Broken(kind, rows[i], name)
      && forall j :: 0 <= j < i ==> !Hit(kind, rows[j], name)
  {
    var i := FirstDecisive(kind, rows, name);
    if i < |rows| {
      assert Decides(kind, rows[i], name);
    }
  }

  /** find: is `name` in field 1 of some row of a container listing? */
  method Find(rows: seq<string>, name: string) returns (r: Result<bool>)
    ensures r == Lookup(Containers, rows, name)
  {
    var i := 0;
    while i < |rows|
      invariant 0 <= i <= |rows|
      invariant forall j :: 0 <= j < i ==> !Decides(Containers, rows[j], name)
    {
      var parts := Fields(rows[i]);
      if |parts| < 2 {
        assert Decides(Containers, rows[i], name);
        return Err(MalformedRow(i));
      }
      if parts[1] == name {
        assert Decides(Containers, rows[i], name);
        return Ok(true);
      }
      i := i + 1;
    }
    return Ok(false);
  }

  /** image_available: is there a row with repository `name` and tag `latest`? */
  method ImageAvailable(rows: seq<string>, name: string) returns (r: Result<bool>)
    ensures r == Lookup(Images, rows, name)
  {
    var i := 0;
    while i < |rows|
      invariant 0 <= i <= |rows|
      invariant forall j :: 0 <= j < i ==> !Decides(Images, rows[j], name)
    {
      var parts := Fields(rows[i]);
      if |parts| == 0 {
        assert Decides(Images, rows[i], name);
        return Err(MalformedRow(i));
      }
      if parts[0] == name {
        if |parts| < 2 {
          assert Decides(Images, rows[i], name);
          return Err(MalformedRow(i));
        }
        if parts[1] == "latest" {
          assert Decides(Images, rows[i], name);
          return Ok(true);
        }
      }
      i := i + 1;
    }
    return Ok(false);
  }
}
