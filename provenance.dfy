/** `MetadataProvenance` (exporter/metadata/provenance.py): the provenance
    block of a metadata document, with the schema major and minor versions
    recorded only for schemas recent enough to carry them. */
module Provenance {
  import opened Wrappers
  import opened Json
  import opened Strings

  /** A plain X.Y.Z version. */
  datatype Semver = Semver(major: nat, minor: nat, patch: nat)

  /** `packaging.version.parse(a) < packaging.version.parse(b)` for plain
      X.Y.Z versions: the components compared numerically, left to right. */
  predicate VersionLess(a: Semver, b: Semver) {
    a.major < b.major
    || (a.major == b.major && (a.minor < b.minor || (a.minor == b.minor && a.patch < b.patch)))
  }

  /** Each concrete type's first schema version that has schema version
      fields in its provenance ('cell_suspension' is listed twice in the
      source with the same value). */
  const Thresholds: map<string, Semver> := map[
    "cell_suspension" := Semver(13, 2, 0),
    "protocol" := Semver(7, 1, 0),
    "differentiation_protocol" := Semver(2, 2, 0),
    "dissociation_protocol" := Semver(6, 2, 0),
    "reference_file" := Semver(3, 2, 0),
    "organoid" := Semver(11, 2, 0),
    "process" := Semver(9, 2, 0),
    "analysis_file" := Semver(6, 2, 0),
    "ipsc_induction_protocol" := Semver(3, 2, 0),
    "analysis_protocol" := Semver(9, 1, 0),
    "sequence_file" := Semver(9, 2, 0),
    "aggregate_generation_protocol" := Semver(2, 1, 0),
    "enrichment_protocol" := Semver(3, 1, 0),
    "collection_protocol" := Semver(9, 2, 0),
    "sequencing_protocol" := Semver(10, 1, 0),
    "supplementary_file" := Semver(2, 2, 0),
    "imaged_specimen" := Semver(3, 2, 0),
    "donor_organism" := Semver(15, 4, 0),
    "imaging_preparation_protocol" := Semver(2, 2, 0),
    "image_file" := Semver(2, 2, 0),
    "project" := Semver(14, 1, 0),
    "analysis_process" := Semver(11, 1, 0),
    "cell_line" := Semver(14, 4, 0),
    "library_preparation_protocol" := Semver(6, 2, 0),
    "imaging_protocol" := Semver(11, 2, 0),
    "specimen_from_organism" := Semver(10, 3, 0)
  ]

  /** `SCHEMA_VERSIONS_WITHOUT_SCHEMA_FIELDS.get(concrete_type)` */
  function ThresholdFor(concreteType: string): Option<Semver> {
    if concreteType in Thresholds then Some(Thresholds[concreteType]) else None
  }

  /** `version_has_schema_fields`: no threshold, or a version at or above it. */
  predicate VersionHasSchemaFields(v: Semver, threshold: Option<Semver>) {
    threshold.None? || !VersionLess(v, threshold.value)
  }

  // ------------------------------------------------ finding X.Y.Z in a URL

  /** The end of the run of digits starting at `i`. */
  function DigitRunEnd(s: string, i: nat): (e: nat)
    requires i <= |s|
    ensures i <= e <= |s| && AllDigits(s[i..e])
    ensures e < |s| ==> !IsDigit(s[e])
    decreases |s| - i
  {
    if i < |s| && IsDigit(s[i]) then
      var e := DigitRunEnd(s, i + 1);
      assert s[i..e] == [s[i]] + s[i + 1..e];
      e
    else i
  }

  /** A run of digits from `i` that stops at `e`. */
  lemma {:induction false} DigitRunEndIs(s: string, i: nat, e: nat)
    requires i <= e <= |s|
    requires forall k :: i <= k < e ==> IsDigit(s[k])
    requires e < |s| ==> !IsDigit(s[e])
    ensures DigitRunEnd(s, i) == e
    decreases e - i
  {
    if i < e {
      DigitRunEndIs(s, i + 1, e);
    }
  }

  /** The match of `\d+\.\d+\.\d+` starting exactly at `i`, if any.  Each run
      of digits is taken whole: a '.' or the end must follow it. */
  function MatchAt(s: string, i: nat): Option<Semver>
    requires i <= |s|
  {
    var e1 := DigitRunEnd(s, i);
    if e1 == i || e1 == |s| || s[e1] != '.' then None
    else
      var e2 := DigitRunEnd(s, e1 + 1);
      if e2 == e1 + 1 || e2 == |s| || s[e2] != '.' then None
      else
        var e3 := DigitRunEnd(s, e2 + 1);
        if e3 == e2 + 1 then None
        else Some(Semver(DigitsValue(s[i..e1]), DigitsValue(s[e1 + 1..e2]), DigitsValue(s[e2 + 1..e3])))
  }

  /** The position of the leftmost match at or after `from`, or -1. */
  function FirstMatchFrom(s: string, from: nat): (r: int)
    requires from <= |s|
    ensures r == -1 || (from <= r <= |s| && MatchAt(s, r).Some?)
    ensures forall j :: from <= j <= |s| && (r == -1 || j < r) ==> MatchAt(s, j).None?
    decreases |s| - from
  {
    if MatchAt(s, from).Some? then from
    else if from == |s| then -1
    else FirstMatchFrom(s, from + 1)
  }

  /** `re.findall(r'\d+\.\d+\.\d+', s)[0]` as a version; None where `findall`
      finds nothing and the indexing raises IndexError. */
  function FirstSemver(s: string): Option<Semver> {
    var i := FirstMatchFrom(s, 0);
    if i == -1 then None else MatchAt(s, i)
  }

  /** No match starts at a character that is not a digit. */
  lemma {:induction false} SkipNonDigits(s: string, from: nat, to: nat)
    requires from <= to <= |s|
    requires forall k :: from <= k < to ==> !IsDigit(s[k])
    ensures to < |s| ==> FirstMatchFrom(s, from) == FirstMatchFrom(s, to)
    decreases (to as int) - (from as int)
  {
    if from < to {
      SkipNonDigits(s, from + 1, to);
    }
  }

  /** `rsplit('/', 1)[-1]` of a path ending in "/" + `b`. */
  lemma {:induction false} LastSegmentAfter(a: string, b: string)
    requires '/' !in b
    ensures LastSegment(a + "/" + b) == b
    decreases |b|
  {
    if b != [] {
      var init := b[..|b| - 1];
      LastSegmentAfter(a, init);
      assert (a + "/" + b)[..|a + "/" + b| - 1] == a + "/" + init;
    } else {
      assert (a + "/" + b)[|a + "/" + b| - 1] == '/';
    }
  }

  /** The schema (major, minor) recorded for a `describedBy`: None when the
      type's schema predates the fields; IndexError when there is no X.Y.Z. */
  function SchemaVersions(describedBy: string): Result<Option<(nat, nat)>> {
    var semver := FirstSemver(describedBy);
    if semver.None? then Err(IndexError)
    else if VersionHasSchemaFields(semver.value, ThresholdFor(LastSegment(describedBy))) then
      Ok(Some((semver.value.major, semver.value.minor)))
    else Ok(None)
  }

  /** The versions apply exactly when the concrete type is not in the table
      or its version reaches the threshold, and are then the first two
      components of the first X.Y.Z. */
  lemma SchemaVersionsRule(describedBy: string)
    ensures SchemaVersions(describedBy).Ok? <==> FirstSemver(describedBy).Some?
    ensures SchemaVersions(describedBy).Ok? ==>
      var v := FirstSemver(describedBy).value;
      var t := LastSegment(describedBy);
      && (SchemaVersions(describedBy).value.Some? <==> t !in Thresholds || !VersionLess(v, Thresholds[t]))
      && (SchemaVersions(describedBy).value.Some? ==> SchemaVersions(describedBy).value.value == (v.major, v.minor))
  {
  }

  /** A run of the digits `x` at `i`, followed by the end or a non-digit. */
  lemma RunAt(s: string, i: nat, x: string)
    requires i + |x| <= |s| && s[i..i + |x|] == x && AllDigits(x)
    requires i + |x| < |s| ==> !IsDigit(s[i + |x|])
    ensures DigitRunEnd(s, i) == i + |x|
  {
    forall k | i <= k < i + |x|
      ensures IsDigit(s[k])
    {
      assert s[k] == s[i..i + |x|][k - i];
    }
    DigitRunEndIs(s, i, i + |x|);
  }

  /** Where the pieces of `p` + "X.Y.Z" + `rest` sit. */
  lemma SemverPieces(p: string, x: string, y: string, z: string, rest: string)
    ensures var s := p + x + "." + y + "." + z + rest;
      var e1 := |p| + |x|;
      var e2 := e1 + 1 + |y|;
      var e3 := e2 + 1 + |z|;
      && |s| == e3 + |rest|
      && s[|p|..e1] == x && s[e1] == '.' && s[e1 + 1..e2] == y && s[e2] == '.' && s[e2 + 1..e3] == z
      && (rest != [] ==> s[e3] == rest[0])
      && s[..|p|] == p
  {
  }

  /** In `p` + "X.Y.Z" + `rest`, with each of X, Y and Z a run of digits and
      `rest` not starting with a digit, the match at the end of `p` is X.Y.Z. */
  lemma SemverAt(p: string, x: string, y: string, z: string, rest: string)
    requires x != [] && y != [] && z != [] && AllDigits(x) && AllDigits(y) && AllDigits(z)
    requires rest == [] || !IsDigit(rest[0])
    ensures MatchAt(p + x + "." + y + "." + z + rest, |p|)
         == Some(Semver(DigitsValue(x), DigitsValue(y), DigitsValue(z)))
  {
    var s := p + x + "." + y + "." + z + rest;
    var e1 := |p| + |x|;
    var e2 := e1 + 1 + |y|;
    var e3 := e2 + 1 + |z|;
    SemverPieces(p, x, y, z, rest);
    SemverAtPositions(s, |p|, x, y, z, e1, e2, e3);
  }

  /** The same, for a string known only by what sits where. */
  lemma SemverAtPositions(s: string, i: nat, x: string, y: string, z: string, e1: nat, e2: nat, e3: nat)
    requires x != [] && y != [] && z != [] && AllDigits(x) && AllDigits(y) && AllDigits(z)
    requires e1 == i + |x| && e2 == e1 + 1 + |y| && e3 == e2 + 1 + |z| && e3 <= |s|
    requires s[i..e1] == x && s[e1] == '.' && s[e1 + 1..e2] == y && s[e2] == '.' && s[e2 + 1..e3] == z
    requires e3 < |s| ==> !IsDigit(s[e3])
    ensures MatchAt(s, i) == Some(Semver(DigitsValue(x), DigitsValue(y), DigitsValue(z)))
  {
    ThreeRuns(s, i, x, y, z, e1, e2, e3);
    MatchAtRuns(s, i, e1, e2, e3);
  }

  /** Where the three runs of digits end. */
  lemma ThreeRuns(s: string, i: nat, x: string, y: string, z: string, e1: nat, e2: nat, e3: nat)
    requires x != [] && y != [] && z != [] && AllDigits(x) && AllDigits(y) && AllDigits(z)
    requires e1 == i + |x| && e2 == e1 + 1 + |y| && e3 == e2 + 1 + |z| && e3 <= |s|
    requires s[i..e1] == x && s[e1] == '.' && s[e1 + 1..e2] == y && s[e2] == '.' && s[e2 + 1..e3] == z
    requires e3 < |s| ==> !IsDigit(s[e3])
    ensures DigitRunEnd(s, i) == e1 && DigitRunEnd(s, e1 + 1) == e2 && DigitRunEnd(s, e2 + 1) == e3
  {
    RunAt(s, i, x);
    RunAt(s, e1 + 1, y);
    RunAt(s, e2 + 1, z);
  }

  /** The match read off the three runs of digits. */
  lemma MatchAtRuns(s: string, i: nat, e1: nat, e2: nat, e3: nat)
    requires i < e1 < e2 < e3 <= |s| && e2 < |s|
    requires DigitRunEnd(s, i) == e1 && s[e1] == '.'
    requires e1 + 1 <= |s| && DigitRunEnd(s, e1 + 1) == e2 && e1 + 1 < e2 && s[e2] == '.'
    requires DigitRunEnd(s, e2 + 1) == e3 && e2 + 1 < e3
    ensures MatchAt(s, i) == Some(Semver(DigitsValue(s[i..e1]), DigitsValue(s[e1 + 1..e2]), DigitsValue(s[e2 + 1..e3])))
  {
  }

  /** With no digit in `p`, the first version of `p` + "X.Y.Z" + `rest` is
      X.Y.Z. */
  lemma FirstSemverAfter(p: string, x: string, y: string, z: string, rest: string)
    requires forall k :: 0 <= k < |p| ==> !IsDigit(p[k])
    requires x != [] && y != [] && z != [] && AllDigits(x) && AllDigits(y) && AllDigits(z)
    requires rest == [] || !IsDigit(rest[0])
    ensures FirstSemver(p + x + "." + y + "." + z + rest)
         == Some(Semver(DigitsValue(x), DigitsValue(y), DigitsValue(z)))
  {
    var s := p + x + "." + y + "." + z + rest;
    SemverPieces(p, x, y, z, rest);
    assert forall k :: 0 <= k < |p| ==> s[k] == s[..|p|][k];
    SemverAt(p, x, y, z, rest);
    SkipNonDigits(s, 0, |p|);
  }

  lemma CellSuspensionThreshold()
    ensures ThresholdFor("cell_suspension") == Some(Semver(13, 2, 0))
  {
  }

  lemma SchemaVersionsOf(describedBy: string, v: Semver, t: string)
    requires FirstSemver(describedBy) == Some(v) && LastSegment(describedBy) == t
    ensures SchemaVersions(describedBy)
         == Ok(if VersionHasSchemaFields(v, ThresholdFor(t)) then Some((v.major, v.minor)) else None)
  {
  }

  /** For a digit-free `p`, the versions read from `p` + "X.Y.Z/" + `t` are
      X and Y when `t`'s threshold allows them. */
  lemma VersionPath(p: string, x: string, y: string, z: string, t: string, v: Semver, a: string)
    requires forall k :: 0 <= k < |p| ==> !IsDigit(p[k])
    requires x != [] && y != [] && z != [] && AllDigits(x) && AllDigits(y) && AllDigits(z)
    requires '/' !in t
    requires v == Semver(DigitsValue(x), DigitsValue(y), DigitsValue(z))
    requires a == p + x + "." + y + "." + z
    ensures SchemaVersions(a + "/" + t)
         == Ok(if VersionHasSchemaFields(v, ThresholdFor(t)) then Some((v.major, v.minor)) else None)
  {
    FirstOfPath(p, x, y, z, t, a);
    LastSegmentAfter(a, t);
    SchemaVersionsOf(a + "/" + t, v, t);
  }

  lemma FirstOfPath(p: string, x: string, y: string, z: string, t: string, a: string)
    requires forall k :: 0 <= k < |p| ==> !IsDigit(p[k])
    requires x != [] && y != [] && z != [] && AllDigits(x) && AllDigits(y) && AllDigits(z)
    requires a == p + x + "." + y + "." + z
    ensures FirstSemver(a + "/" + t) == Some(Semver(DigitsValue(x), DigitsValue(y), DigitsValue(z)))
  {
    assert a + "/" + t == a + ("/" + t);
    FirstSemverAfter(p, x, y, z, "/" + t);
  }

  /** A type without a threshold records its versions: '.../1.2.3/widget'
      gives 1 and 2, whatever digit-free path precedes it. */
  lemma ExampleUnlisted(p: string)
    requires forall k :: 0 <= k < |p| ==> !IsDigit(p[k])
    ensures SchemaVersions(p + "1.2.3/widget") == Ok(Some((1, 2)))
  {
    var a := p + "1" + "." + "2" + "." + "3";
    PathShape(p, "1", "2", "3", "widget", p + "1.2.3/widget", a);
    SingleDigits();
    VersionPath(p, "1", "2", "3", "widget", Semver(1, 2, 3), a);
    UnlistedType("widget");
  }

  /** 13.1.1 is below cell_suspension's 13.2.0: no versions recorded. */
  lemma ExampleOlder(p: string)
    requires forall k :: 0 <= k < |p| ==> !IsDigit(p[k])
    ensures SchemaVersions(p + "13.1.1/cell_suspension") == Ok(None)
  {
    var a := p + "13" + "." + "1" + "." + "1";
    PathShape(p, "13", "1", "1", "cell_suspension", p + "13.1.1/cell_suspension", a);
    SingleDigits();
    TwoDigits("13", 13);
    VersionPath(p, "13", "1", "1", "cell_suspension", Semver(13, 1, 1), a);
    CellSuspensionThreshold();
  }

  /** 15.1.1 is above cell_suspension's 13.2.0: 15 and 1 are recorded. */
  lemma ExampleNewer(p: string)
    requires forall k :: 0 <= k < |p| ==> !IsDigit(p[k])
    ensures SchemaVersions(p + "15.1.1/cell_suspension") == Ok(Some((15, 1)))
  {
    var a := p + "15" + "." + "1" + "." + "1";
    PathShape(p, "15", "1", "1", "cell_suspension", p + "15.1.1/cell_suspension", a);
    SingleDigits();
    TwoDigits("15", 15);
    VersionPath(p, "15", "1", "1", "cell_suspension", Semver(15, 1, 1), a);
    CellSuspensionThreshold();
  }

  lemma PathShape(p: string, x: string, y: string, z: string, t: string, s: string, a: string)
    requires s == p + (x + "." + y + "." + z + "/" + t) && a == p + x + "." + y + "." + z
    ensures s == a + "/" + t
  {
  }

  lemma SingleDigits()
    ensures AllDigits("1") && DigitsValue("1") == 1
    ensures AllDigits("2") && DigitsValue("2") == 2
    ensures AllDigits("3") && DigitsValue("3") == 3
  {
  }

  lemma TwoDigits(x: string, v: nat)
    requires |x| == 2 && IsDigit(x[0]) && IsDigit(x[1]) && v == (x[0] as int - '0' as int) * 10 + (x[1] as int - '0' as int)
    ensures AllDigits(x) && DigitsValue(x) == v
  {
  }

  lemma UnlistedType(t: string)
    requires t == "widget"
    ensures ThresholdFor(t) == None
  {
  }

  // ------------------------------------------------------------- from_dict

  datatype MetadataProvenance = MetadataProvenance(
    documentId: Json,
    submissionDate: Json,
    updateDate: Json,
    schemaMajorVersion: Option<nat>,
    schemaMinorVersion: Option<nat>)

  /** The body of `from_dict` before its `except (KeyError, TypeError)`;
      `re.findall` on a `describedBy` that is not a string is a TypeError. */
  function ReadProvenance(data: Json): Result<MetadataProvenance> {
    var uuidObj :- Get(data, "uuid");
    var uuid :- Get(uuidObj, "uuid");
    var submissionDate :- Get(data, "submissionDate");
    var updateDate :- Get(data, "updateDate");
    var content :- Get(data, "content");
    var describedBy :- Get(content, "describedBy");
    if !describedBy.JStr? then Err(TypeError)
    else
      var versions :- SchemaVersions(describedBy.s);
      if versions.Some? then
        Ok(MetadataProvenance(uuid, submissionDate, updateDate, Some(versions.value.0), Some(versions.value.1)))
      else
        Ok(MetadataProvenance(uuid, submissionDate, updateDate, None, None))
  }

  /** `MetadataProvenance.from_dict` */
  function FromDict(data: Json): Result<MetadataProvenance> {
    ConvertLookupError(ReadProvenance(data), MetadataParseException)
  }

  /** Every key `from_dict` reads is present, with dicts where it looks inside
      and a string `describedBy`. */
  predicate HasProvenanceKeys(data: Json) {
    && data.JObj? && "uuid" in data.fields && data.fields["uuid"].JObj?
    && "uuid" in data.fields["uuid"].fields
    && "submissionDate" in data.fields && "updateDate" in data.fields
    && "content" in data.fields && data.fields["content"].JObj?
    && "describedBy" in data.fields["content"].fields
    && data.fields["content"].fields["describedBy"].JStr?
  }

  function DescribedBy(data: Json): string
    requires HasProvenanceKeys(data)
  {
    data.fields["content"].fields["describedBy"].s
  }

  /** The document's identity and dates are copied unchanged, and the schema
      versions are those of its `describedBy`. */
  lemma FromDictFields(data: Json)
    requires FromDict(data).Ok?
    ensures HasProvenanceKeys(data)
    ensures var p := FromDict(data).value;
      && p.documentId == data.fields["uuid"].fields["uuid"]
      && p.submissionDate == data.fields["submissionDate"]
      && p.updateDate == data.fields["updateDate"]
      && SchemaVersions(DescribedBy(data)).Ok?
      && p.schemaMajorVersion.Some? == SchemaVersions(DescribedBy(data)).value.Some?
      && p.schemaMinorVersion.Some? == SchemaVersions(DescribedBy(data)).value.Some?
      && (p.schemaMajorVersion.Some? ==>
            (p.schemaMajorVersion.value, p.schemaMinorVersion.value) == SchemaVersions(DescribedBy(data)).value.value)
  {
  }

  /** A missing key or a non-dict level is a MetadataParseException; a
      `describedBy` with no X.Y.Z escapes as IndexError. */
  lemma FromDictErrors(data: Json)
    ensures FromDict(data).Err? <==> !HasProvenanceKeys(data) || FirstSemver(DescribedBy(data)).None?
    ensures FromDict(data).Err? ==>
      FromDict(data).error == (if HasProvenanceKeys(data) then IndexError else MetadataParseException)
  {
  }
}
