/**
  The records the driver controller handles: driver entries (the DTO the listings
  return), data-source type descriptors, driver files and uploads, and the display
  alias every listed entry receives.
 */
module DriverModel {
  import opened Optional

  /**
    A driver entry as the listings return it. `driverType` is null on the synthetic
    default entry; the typed listing requires every real driver to carry one.
    `supportVersions` is the Java field `surpportVersions`.
   */
  datatype Driver = Driver(
    id: string,
    name: string,
    driverType: Option<string>,
    driverClass: string,
    supportVersions: Option<string>,
    nameAlias: Option<string>)

  /** A stored driver record, as the save, update and delete endpoints receive it: it has no alias. */
  datatype DeDriver = DeDriver(
    id: string,
    name: string,
    driverType: string,
    driverClass: string,
    supportVersions: Option<string>)

  /** A data-source type descriptor: the type name and the versions it supports. */
  datatype DsType = DsType(dsType: string, supportVersions: Option<string>)

  /** A driver file (JAR) attached to the driver `driverId`. */
  datatype DriverDetail = DriverDetail(id: string, driverId: string, fileName: string)

  /** An uploaded file as the controller receives it; its content is never inspected. */
  datatype Upload = Upload(fileName: string, content: seq<bv8>)

  /** `StringUtils.isEmpty`: null or the empty string. A blank string is not empty. */
  predicate IsEmpty(s: Option<string>) {
    s.None? || s.value == ""
  }

  /** The display alias: the bare name, or the name with the versions in parentheses. */
  function NameAlias(name: string, versions: Option<string>): (alias: string)
    ensures alias == name <==> IsEmpty(versions)
    ensures |name| <= |alias| && alias[..|name|] == name
    ensures !IsEmpty(versions) ==> alias[|name|..] == "(" + versions.value + ")"
  {
    if IsEmpty(versions) then name else name + "(" + versions.value + ")"
  }

  /** The alias determines the versions it was built from, up to null versus "". */
  lemma NameAliasDeterminesVersions(name: string, v1: Option<string>, v2: Option<string>)
    requires NameAlias(name, v1) == NameAlias(name, v2)
    ensures IsEmpty(v1) <==> IsEmpty(v2)
    ensures !IsEmpty(v1) ==> v1 == v2
  {
    if !IsEmpty(v1) && !IsEmpty(v2) {
      var a := NameAlias(name, v1);
      assert a[|name|..] == "(" + v1.value + ")" == "(" + v2.value + ")";
      assert v1.value == ("(" + v1.value + ")")[1..|a| - |name| - 1];
    }
  }

  /** A blank versions string still decorates the name. */
  lemma BlankVersionsDecorate(name: string)
    ensures NameAlias(name, Some(" ")) == name + "( )"
    ensures NameAlias(name, Some("")) == name
    ensures NameAlias(name, None) == name
  {
  }

  /** The entry with its alias set from its own name and versions; nothing else changes. */
  function WithAlias(d: Driver): (r: Driver)
    ensures r.nameAlias == Some(NameAlias(d.name, d.supportVersions))
    ensures r.(nameAlias := d.nameAlias) == d
  {
    d.(nameAlias := Some(NameAlias(d.name, d.supportVersions)))
  }
}
